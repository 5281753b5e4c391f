/** A joint run from start to end, with ECH accepted, a HelloRetryRequest and a resumed session: past the
    moments where each party looks at the other's Finished, until both are done and nothing is under way. */
module HonestRun {
  import opened Wire
  import opened HandshakeCore
  import C = ClientMachine
  import CI = ClientInv
  import S = ServerMachine
  import opened Agreement
  import opened Honest

  function Ticket(): Schedule { S.FirstSchedule(1, Some(Atom(5))) }

  function ClientSide(): C.Config
  {
    C.Config(true, false, true, 0, 0, true, Some(Ticket()), 0, false, false, false, false)
  }

  function ServerSide(): S.Config { S.Config(true, false, true, false, S.NotAsked, false, (_: nat) => Some(Atom(5))) }

  /** The client offers group 0 first, and 8 is its private number for the group of the retry. */
  function ClientOracle(): C.Oracle
  {
    C.Oracle(true, 0, 0, 0, 0, map[0 := 7], None, true, true, false, false, false, false, false, 8, 0)
  }

  /** The server can open the inner hello, and wants group 1. */
  function ServerOracle(): S.Oracle
  {
    S.Oracle(true, 0, true, true, 1, true, false, 1, true, false, false,
             S.Extras(false, false, false, false, false, false, false, None), false, true, true, false, 9, 0)
  }

  function ClientMove(): C.Action { C.Handle(ClientOracle()) }

  function ServerMove(): S.Action { S.Handle(ServerOracle()) }

  // The conversation

  const FirstHello: Message := ClientHello(0, 0, map[0 := 7], None, Some(Inner(0, 0, Some(0))))
  const OtherHello: Message := ClientHello(0, 0, map[1 := 8], None, Some(Inner(0, 0, Some(0))))
  const BlankRequest: Message := ServerHello(0, true, true, 1, false, Some((1, 0)), None)
  const BlankAnswer: Message := ServerHello(0, false, true, 1, true, Some((1, 9)), None)

  /** The message with number `n`. */
  function Said(n: nat): Message
    decreases n, 1
  {
    match n
    case 0 => FirstHello
    case 1 => BlankRequest.(confirm := Some(Confirmation(0, Retry(Past(1), 1), BlankRequest)))
    case 2 => OtherHello
    case 3 => BlankAnswer.(confirm := Some(Confirmation(0, Past(3), BlankAnswer)))
    case 4 => EncryptedExtensions(0, false)
    case 5 => FinishedMsg(VerifyData(1, Secret(ServerHs), Past(5)))
    case _ => FinishedMsg(VerifyData(1, Secret(ClientHs), Past(6)))
  }

  /** The transcript of the first `n` messages. */
  function Past(n: nat): Transcript
    decreases n, 0
  {
    if n == 0 then [] else
    (if n == 2 then Retry(Past(1), 1) else Past(n - 1)) + [Msg(Seen(Said(n - 1), true))]
  }

  function Agreed(): Schedule { ExtractKey(Ticket(), Some(Exchange(8, 9))) }

  function Secret(l: Label): Term
    decreases 4, 1
  {
    DeriveSecret(Agreed(), l, Past(4))
  }

  /** The two hellos of the client, and the transcript with each. */
  lemma HellosSaid()
    ensures Said(0) == FirstHello && Past(1) == [Msg(Seen(FirstHello, true))]
    ensures Said(2) == OtherHello && Past(3) == Past(2) + [Msg(Seen(OtherHello, true))]
  {}

  /** The two of the server, which carry confirmations. */
  lemma AnswersSaid()
    ensures Said(1) == BlankRequest.(confirm := Some(Confirmation(0, Retry(Past(1), 1), BlankRequest)))
    ensures Confirms(0, Retry(Past(1), 1), Said(1)) && Past(2) == Retry(Past(1), 1) + [Msg(Said(1))]
    ensures Said(3) == BlankAnswer.(confirm := Some(Confirmation(0, Past(3), BlankAnswer)))
    ensures Confirms(0, Past(3), Said(3)) && Past(4) == Past(3) + [Msg(Said(3))]
  {}

  /** What is said under handshake keys. */
  lemma RestSaid()
    ensures Agreed().hash == 1 && Agreed().generation == 2
    ensures Said(4) == EncryptedExtensions(0, false) && Past(5) == Past(4) + [Msg(Said(4))]
    ensures Said(5) == FinishedMsg(VerifyData(1, Secret(ServerHs), Past(5))) && Past(6) == Past(5) + [Msg(Said(5))]
    ensures Said(6) == FinishedMsg(VerifyData(1, Secret(ClientHs), Past(6)))
  {
    hide Secret;
  }

  /** Both handshake secrets under the agreed schedule. */
  predicate Keyed(k: Keys, mine: Label, yours: Label)
  {
    && k.schedule == Some(Agreed())
    && Handshake in k.enc && k.enc[Handshake] == Secret(mine) && Handshake in k.dec && k.dec[Handshake] == Secret(yours)
  }

  // Where a party is

  /** Its state and status, what it was handed and has not consumed, and all that it was handed. */
  datatype Place<T> = Place(state: T, status: Status, waiting: seq<Message>, fed: seq<Message>)

  function Ahead(io: Io): seq<Message> { (if io.cache.Some? then [io.cache.value] else []) + io.incoming }

  predicate Exchanged(io: Io, waiting: seq<Message>, fed: seq<Message>, sent: seq<Message>)
  {
    Ahead(io) == waiting && !io.partial && io.fed == fed && Of(io.wire, Sent) == sent
  }

  /** What each party says in all. */
  function ClientLines(): (r: seq<Message>)
    ensures |r| == 3
  {
    [Said(0), Said(2), Said(6)]
  }

  function ServerLines(): (r: seq<Message>)
    ensures |r| == 4
  {
    [Said(1), Said(3), Said(4), Said(5)]
  }

  /** How much of it the client has sent by the time it gets to a state. */
  function ClientSaid(s: C.ClientState): (n: nat)
    ensures n <= 3
  {
    match s
    case StartConnect => 0
    case EnterEarlyData | ReadServerHello | CompatCcs13 | ReadHrr13 | SendSecondClientHello13 => 1
    case CompleteSecondFlight13 | FinishClientHandshake | Done => 3
    case _ => 2
  }

  /** How many messages are in the transcript by then; before ECH is confirmed, in the inner one. */
  function ClientHeard(s: C.ClientState): nat
  {
    match s
    case EnterEarlyData | ReadServerHello | CompatCcs13 | ReadHrr13 => 1
    case SendSecondClientHello13 => 2
    case ReadServerHello13 => 3
    case ReadEncryptedExtensions13 => 4
    case ReadCertificateRequest13 | ReadServerFinished13 => 5
    case _ => 6
  }

  /** What the handlers from there on make use of. */
  predicate ClientKnows(c: C.Client)
  {
    match c.state
    case StartConnect => c == C.NewClient()
    case EnterEarlyData | ReadServerHello | CompatCcs13 | ReadHrr13 =>
      c.f.ech == Undecided && c.inner == Past(ClientHeard(c.state))
    case SendSecondClientHello13 | ReadServerHello13 =>
      && c.f.ech == Accepted && c.f.retried && c.inner == Past(ClientHeard(c.state))
      && c.x.kex == map[1 := 8] && c.k.keys.schedule == Some(NewSchedule(1))
    case ReadEncryptedExtensions13 | ReadCertificateRequest13 | ReadServerFinished13 =>
      && c.f.ech == Accepted && c.f.innerOn && c.f.retried && c.f.reused && Keyed(c.k.keys, ClientHs, ServerHs)
      && c.k.io.transcript == Past(ClientHeard(c.state))
    case SendEndOfEarlyData13 | SendClientEncryptedExtensions13 | SendClientCertificate13 | SendClientFinished13 =>
      && c.f.ech == Accepted && c.k.keys.schedule.Some? && c.k.keys.schedule.value.hash == 1
      && Handshake in c.k.keys.enc && c.k.keys.enc[Handshake] == Secret(ClientHs)
      && c.k.io.transcript == Past(ClientHeard(c.state))
    case _ => c.f.ech == Accepted
  }

  predicate ClientAt(c: C.Client, p: Place<C.ClientState>)
  {
    && Exchanged(c.k.io, p.waiting, p.fed, ClientLines()[..ClientSaid(p.state)]) && c.end.Running? && c.state == p.state
    && c.status == p.status && c.f.early == Undecided && !c.f.inEarly && !c.l.certRequested && c.x.random == 0
    && (!c.state.StartConnect? ==> c.psk == ClientSide().psk) && ClientKnows(c)
    && (c.f.version13 || c.state.StartConnect? || c.state.EnterEarlyData? || c.state.ReadServerHello?)
  }

  /** The handlers of the run that look at a message. */
  predicate ClientReads(s: C.ClientState)
  {
    || s.ReadServerHello? || s.ReadHrr13? || s.ReadServerHello13? || s.ReadEncryptedExtensions13?
    || s.ReadServerFinished13?
  }

  /** Where a handler goes on to. */
  function ClientNext(s: C.ClientState): (C.ClientState, Status)
  {
    match s
    case StartConnect => (C.EnterEarlyData, FlushHandshake)
    case EnterEarlyData => (C.ReadServerHello, Ok)
    case ReadServerHello => (C.CompatCcs13, Ok)
    case CompatCcs13 => (C.ReadHrr13, Ok)
    case ReadHrr13 => (C.SendSecondClientHello13, Ok)
    case SendSecondClientHello13 => (C.ReadServerHello13, FlushHandshake)
    case ReadServerHello13 => (C.ReadEncryptedExtensions13, Ok)
    case ReadEncryptedExtensions13 => (C.ReadCertificateRequest13, Ok)
    case ReadCertificateRequest13 => (C.ReadServerFinished13, Ok)
    case ReadServerFinished13 => (C.SendEndOfEarlyData13, Ok)
    case SendEndOfEarlyData13 => (C.SendClientEncryptedExtensions13, PackFlight)
    case SendClientEncryptedExtensions13 => (C.SendClientCertificate13, Ok)
    case SendClientCertificate13 => (C.SendClientFinished13, Ok)
    case SendClientFinished13 => (C.CompleteSecondFlight13, FlushHandshake)
    case CompleteSecondFlight13 => (C.FinishClientHandshake, Ok)
    case _ => (C.Done, Ok)
  }

  predicate ClientPasses(s: C.ClientState) { s.FinishClientHandshake? || !ClientNext(s).0.Done? }

  /** What waits for the client when a handler that needs it is called. */
  function ClientHas(s: C.ClientState): seq<Message>
  {
    match s
    case ReadServerHello | CompatCcs13 | ReadHrr13 => [Said(1)]
    case ReadServerHello13 => [Said(3)]
    case ReadEncryptedExtensions13 => [Said(4), Said(5)]
    case ReadCertificateRequest13 | ReadServerFinished13 => [Said(5)]
    case _ => []
  }

  /** A handler of the run can be called. */
  predicate ClientReady(p: Place<C.ClientState>)
  {
    && (p.status == Ok || p.status == PackFlight || p.status == FlushHandshake) && ClientPasses(p.state)
    && p.waiting == ClientHas(p.state)
  }

  /** Three of the states are entered with nothing there. */
  function ClientAfter(p: Place<C.ClientState>): Place<C.ClientState>
  {
    var (t, st) := ClientNext(p.state);
    var empty := t.ReadServerHello? || t.ReadServerHello13? || t.ReadEncryptedExtensions13?;
    Place(t, st, if empty then [] else ClientHas(t), p.fed)
  }

  /** The same for the server. */
  function ServerSaid(s: S.ServerState): (n: nat)
    ensures n <= 4
  {
    match s
    case StartAccept | ReadClientHello | SelectParameters13 | SendHelloRetryRequest13 => 0
    case HrrCompatCcs13 | ReadSecondClientHello13 | SendServerHello13 => 1
    case ServerHelloCompatCcs13 | SendEncryptedExtensions13 => 2
    case SendServerFinished13 => 3
    case _ => 4
  }

  function ServerHeard(s: S.ServerState): Transcript
  {
    match s
    case ReadClientHello | SelectParameters13 => []
    case SendHelloRetryRequest13 => Retry(Past(1), 1)
    case HrrCompatCcs13 | ReadSecondClientHello13 => Past(2)
    case SendServerHello13 => Past(3)
    case ServerHelloCompatCcs13 | SendEncryptedExtensions13 => Past(4)
    case SendServerFinished13 => Past(5)
    case _ => Past(6)
  }

  predicate ServerKnows(s: S.Server)
  {
    match s.state
    case StartAccept => s == S.NewServer()
    case ReadClientHello => s.k.io.transcript == ServerHeard(s.state)
    case SelectParameters13 =>
      s.f.version13 && s.f.innerOn && s.t.random == 0 && s.k.io.transcript == ServerHeard(s.state)
    case SendHelloRetryRequest13 | HrrCompatCcs13 | ReadSecondClientHello13 | SendServerHello13 =>
      && s.f.version13 && s.f.innerOn && s.f.reused && s.t.random == 0 && s.k.keys.schedule == Some(Ticket())
      && s.t.regroup == Some(1) && (s.state.SendServerHello13? ==> s.t.peer == Some((1, 8)))
      && s.k.io.transcript == ServerHeard(s.state)
    case ServerHelloCompatCcs13 | SendEncryptedExtensions13 | SendServerFinished13 =>
      s.f.reused && Keyed(s.k.keys, ServerHs, ClientHs) && s.k.io.transcript == ServerHeard(s.state)
    case ReadSecondClientFlight13 | ProcessEndOfEarlyData13 | ReadClientEncryptedExtensions13 | ReadClientCertificate13
       | ReadClientFinished13 =>
      && s.k.keys.schedule.Some? && s.k.keys.schedule.value.hash == 1
      && Handshake in s.k.keys.dec && s.k.keys.dec[Handshake] == Secret(ClientHs)
      && s.k.io.transcript == ServerHeard(s.state)
    case _ => true
  }

  predicate ServerAt(s: S.Server, p: Place<S.ServerState>)
  {
    && Exchanged(s.k.io, p.waiting, p.fed, ServerLines()[..ServerSaid(p.state)]) && s.end.Running? && s.state == p.state
    && s.status == p.status && s.f.early == Undecided && !s.x.alps && !s.x.certRequested && !s.x.hasCert
    && ServerKnows(s)
  }

  predicate ServerReads(s: S.ServerState)
  {
    s.ReadClientHello? || s.SelectParameters13? || s.ReadSecondClientHello13? || s.ReadClientFinished13?
  }

  function ServerNext(s: S.ServerState): (S.ServerState, Status)
  {
    match s
    case StartAccept => (S.ReadClientHello, Ok)
    case ReadClientHello => (S.SelectParameters13, Ok)
    case SelectParameters13 => (S.SendHelloRetryRequest13, Ok)
    case SendHelloRetryRequest13 => (S.HrrCompatCcs13, FlushHandshake)
    case HrrCompatCcs13 => (S.ReadSecondClientHello13, Ok)
    case ReadSecondClientHello13 => (S.SendServerHello13, Ok)
    case SendServerHello13 => (S.ServerHelloCompatCcs13, PackFlight)
    case ServerHelloCompatCcs13 => (S.SendEncryptedExtensions13, Ok)
    case SendEncryptedExtensions13 => (S.SendServerFinished13, Ok)
    case SendServerFinished13 => (S.ReadSecondClientFlight13, FlushHandshake)
    case ReadSecondClientFlight13 => (S.ProcessEndOfEarlyData13, Ok)
    case ProcessEndOfEarlyData13 => (S.ReadClientEncryptedExtensions13, Ok)
    case ReadClientEncryptedExtensions13 => (S.ReadClientCertificate13, Ok)
    case ReadClientCertificate13 => (S.ReadClientFinished13, Ok)
    case ReadClientFinished13 => (S.SendNewSessionTicket13, Ok)
    case SendNewSessionTicket13 => (S.FinishServerHandshake, Ok)
    case _ => (S.Done, Ok)
  }

  predicate ServerPasses(s: S.ServerState) { s.FinishServerHandshake? || !ServerNext(s).0.Done? }

  function ServerHas(s: S.ServerState): seq<Message>
  {
    match s
    case ReadClientHello | SelectParameters13 => [Said(0)]
    case ReadSecondClientHello13 => [Said(2)]
    case ReadClientFinished13 => [Said(6)]
    case _ => []
  }

  predicate ServerReady(p: Place<S.ServerState>)
  {
    && (p.status == Ok || p.status == PackFlight || p.status == FlushHandshake) && ServerPasses(p.state)
    && p.waiting == ServerHas(p.state)
  }

  function ServerAfter(p: Place<S.ServerState>): Place<S.ServerState>
  {
    var (t, st) := ServerNext(p.state);
    Place(t, st, if t.SelectParameters13? then ServerHas(t) else [], p.fed)
  }

  // One action of one party

  ghost predicate Joint(c: C.Client, s: S.Server) { exists n: nat :: Run(ClientSide(), ServerSide(), c, s, n) }

  lemma JointFifo(c: C.Client, s: S.Server)
    requires Joint(c, s)
    ensures Fifo(c, s)
  {
    hide Run, Fifo;
    var n: nat :| Run(ClientSide(), ServerSide(), c, s, n);
    RunReaches(ClientSide(), ServerSide(), c, s, n);
  }

  lemma ClientActs(c: C.Client, s: S.Server, a: C.Action)
    requires Joint(c, s) && C.Enabled(c, a)
    requires var d := C.Apply(ClientSide(), c, a);
             d.k.io.fed <= Of(s.k.io.wire, Sent) && Of(c.k.io.wire, Sent) <= Of(d.k.io.wire, Sent)
    ensures Joint(C.Apply(ClientSide(), c, a), s)
  {
    hide C.Apply, C.Enabled, Of;
    var n: nat :| Run(ClientSide(), ServerSide(), c, s, n);
    JointFifo(c, s);
    assert Run(ClientSide(), ServerSide(), C.Apply(ClientSide(), c, a), s, n + 1);
  }

  lemma ServerActs(c: C.Client, s: S.Server, a: S.Action)
    requires Joint(c, s) && S.Enabled(s, a)
    requires var t := S.Apply(ServerSide(), s, a);
             t.k.io.fed <= Of(c.k.io.wire, Sent) && Of(s.k.io.wire, Sent) <= Of(t.k.io.wire, Sent)
    ensures Joint(c, S.Apply(ServerSide(), s, a))
  {
    hide S.Apply, S.Enabled, Of;
    var n: nat :| Run(ClientSide(), ServerSide(), c, s, n);
    JointFifo(c, s);
    assert Run(ClientSide(), ServerSide(), c, S.Apply(ServerSide(), s, a), n + 1);
  }

  lemma SentOne(w: seq<Event>, m: Message)
    ensures Of(w + [Event(Sent, m)], Sent) == Of(w, Sent) + [m]
  {
    WireSnoc(w, Event(Sent, m));
  }

  lemma TookOne(w: seq<Event>, m: Message)
    ensures Of(w + [Event(Received, m)], Sent) == Of(w, Sent)
  {
    WireSnoc(w, Event(Received, m));
  }

  // The client's handlers

  /** The awaited message is looked at. */
  lemma ClientPeeks(c: C.Client, p: Place<C.ClientState>)
    requires ClientAt(c, p) && p.waiting != []
    ensures var b := C.Peeked(c);
            ClientAt(b, p) && b.k.io.cache == Some(p.waiting[0]) && b.k.io.incoming == p.waiting[1..]
  {
    hide Said, Past, Secret, Of, ClientLines;
  }

  /** The handlers that neither read nor send: only the record layer may change. */
  predicate ClientIdles(s: C.ClientState)
  {
    && ClientPasses(s) && !ClientReads(s) && !s.StartConnect? && !s.SendSecondClientHello13?
    && !s.SendClientFinished13?
  }

  lemma ClientIdle(c: C.Client, p: Place<C.ClientState>)
    requires ClientAt(c, p) && ClientIdles(p.state)
    ensures !C.Awaits(ClientSide(), c) && C.HasHandler(c.state)
    ensures var d := C.OnQuiet(ClientSide(), c, ClientOracle());
            && d == C.GoWith(c, d.k, ClientNext(p.state).0, ClientNext(p.state).1) && d.k.io == c.k.io
            && d.k.keys == c.k.keys
  {
    hide Said, Past, Secret, Agreed, Of, C.Descends, C.DoStartConnect, C.DoSendSecondClientHello13,
         C.DoSendClientFinished13, ClientLines;
  }

  lemma ClientPassed(c: C.Client, k: Core, p: Place<C.ClientState>)
    requires ClientAt(c, p) && ClientReady(p) && ClientIdles(p.state) && k.io == c.k.io && k.keys == c.k.keys
    ensures ClientAt(C.GoWith(c, k, ClientNext(p.state).0, ClientNext(p.state).1), ClientAfter(p))
  {
    hide Said, Past, Secret, Agreed, Of, Keyed, ClientLines;
  }

  lemma ClientStarts(c: C.Client, p: Place<C.ClientState>)
    requires ClientAt(c, p) && p == Place(C.StartConnect, Ok, [], [])
    ensures ClientAt(C.DoStartConnect(ClientSide(), c, ClientOracle()), Place(C.EnterEarlyData, FlushHandshake, [], []))
  {
    hide Secret, Agreed, C.Descends, Said, Past;
    HellosSaid();
    assert Of([], Sent) == [];
    SentOne([], Said(0));
  }

  lemma ClientRepeats(c: C.Client, p: Place<C.ClientState>)
    requires ClientAt(c, p) && p.state.SendSecondClientHello13?
    ensures ClientAt(C.DoSendSecondClientHello13(ClientSide(), c, ClientOracle()),
                     p.(state := C.ReadServerHello13, status := FlushHandshake))
  {
    hide Secret, Agreed, Of, C.Descends, Said, Past;
    HellosSaid();
    SentOne(c.k.io.wire, Said(2));
  }

  lemma ClientFinishes(c: C.Client, p: Place<C.ClientState>)
    requires ClientAt(c, p) && p.state.SendClientFinished13?
    ensures ClientAt(C.DoSendClientFinished13(c), p.(state := C.CompleteSecondFlight13, status := FlushHandshake))
  {
    hide Secret, Agreed, Of, Said, Past, C.DoSendClientFinished13, Keyed, VerifyData, ClientHas;
    ClientProves(c, p);
    SentOne(c.k.io.wire, Said(6));
  }

  lemma ClientProves(c: C.Client, p: Place<C.ClientState>)
    requires ClientAt(c, p) && p.state.SendClientFinished13?
    ensures var d := C.DoSendClientFinished13(c);
            d == C.GoWith(c.(h := d.h), C.Put(c.k, Said(6)), C.CompleteSecondFlight13, FlushHandshake)
  {
    hide Secret, Agreed, Of, C.Descends, Said, Past, VerifyData, ClientLines;
    RestSaid();
  }

  /** The handlers that look at a message, and what each of them makes of it. */
  lemma ClientSees(c: C.Client, p: Place<C.ClientState>)
    requires ClientAt(c, p) && ClientReady(p) && p.state.ReadServerHello? && c.k.io.cache == Some(Said(1))
    ensures ClientAt(C.OnServerHello(ClientSide(), c, Said(1), ClientOracle()), ClientAfter(p))
  {
    hide Past, Secret, Agreed, Of, C.Descends, Said;
    AnswersSaid();
  }

  lemma ClientRetries(c: C.Client, p: Place<C.ClientState>)
    requires ClientAt(c, p) && ClientReady(p) && p.state.ReadHrr13? && c.k.io.cache == Some(Said(1))
    ensures ClientAt(C.OnHrr13(ClientSide(), c, Said(1), ClientOracle()), ClientAfter(p))
  {
    hide Past, Secret, Agreed, Of, Said, C.OnHrr13;
    AnswersSaid();
    ClientRewrites(c, p);
    TookOne(c.k.io.wire, Said(1));
  }

  lemma ClientRewrites(c: C.Client, p: Place<C.ClientState>)
    requires ClientAt(c, p) && ClientReady(p) && p.state.ReadHrr13? && c.k.io.cache == Some(Said(1))
    ensures var d := C.OnHrr13(ClientSide(), c, Said(1), ClientOracle());
            && d == C.GoWith(c.(f := c.f.(retried := true, ech := Accepted), inner := Past(2),
                                x := c.x.(kex := map[1 := 8])),
                             d.k, C.SendSecondClientHello13, Ok)
            && d.k.io == Consume(Rewrite(c.k.io, 1), Said(1), true)
            && d.k.keys == c.k.keys.(schedule := Some(NewSchedule(1)))
  {
    hide Past, Secret, Agreed, Of, Said, Confirms, ClientLines;
    AnswersSaid();
  }

  lemma ClientConfirms(c: C.Client, p: Place<C.ClientState>)
    requires ClientAt(c, p) && ClientReady(p) && p.state.ReadServerHello13? && c.k.io.cache == Some(Said(3))
    ensures C.OnServerHello13(ClientSide(), c, Said(3), ClientOracle()) ==
            C.Proceed(c.(f := c.f.(innerOn := true), k := c.k.(io := c.k.io.(transcript := Past(3)))), Agreed(), true,
                      false)
  {
    hide Past, Secret, Of, C.Descends, Said, Confirms, C.Proceed, ExtractKey, Exchange, ClientLines;
    AnswersSaid();
  }

  lemma ClientAgrees(c: C.Client, p: Place<C.ClientState>)
    requires ClientAt(c, p) && ClientReady(p) && p.state.ReadServerHello13? && c.k.io.cache == Some(Said(3))
    ensures ClientAt(C.OnServerHello13(ClientSide(), c, Said(3), ClientOracle()), ClientAfter(p))
  {
    hide Past, Of, C.Descends, Said, Confirms, C.OnServerHello13, ExtractKey, DeriveSecret, Agreed;
    AnswersSaid();
    ClientConfirms(c, p);
    TookOne(c.k.io.wire, Said(3));
  }

  lemma ClientExtends(c: C.Client, p: Place<C.ClientState>)
    requires ClientAt(c, p) && ClientReady(p) && p.state.ReadEncryptedExtensions13? && c.k.io.cache == Some(Said(4))
    ensures ClientAt(C.OnEncryptedExtensions13(ClientSide(), c, Said(4), ClientOracle()), ClientAfter(p))
  {
    hide Past, Of, Said, Agreed, Secret, Keyed, C.OnEncryptedExtensions13;
    RestSaid();
    assert c.k.io.incoming == Ahead(c.k.io)[1..] == [Said(5)];
    ClientTakes(c, p);
    TookOne(c.k.io.wire, Said(4));
  }

  lemma ClientTakes(c: C.Client, p: Place<C.ClientState>)
    requires ClientAt(c, p) && p.state.ReadEncryptedExtensions13? && c.k.io.cache == Some(Said(4))
    ensures C.OnEncryptedExtensions13(ClientSide(), c, Said(4), ClientOracle())
            == C.GoWith(c, C.Next(c), C.ReadCertificateRequest13, Ok)
  {
    hide Past, Of, C.Descends, Said, Agreed, Secret, Keyed, ClientLines;
    RestSaid();
  }

  lemma ClientVerifies(c: C.Client, p: Place<C.ClientState>)
    requires ClientAt(c, p) && ClientReady(p) && p.state.ReadServerFinished13? && c.k.io.cache == Some(Said(5))
    ensures ClientAt(C.OnServerFinished13(c, Said(5)), ClientAfter(p))
  {
    hide Past, Of, Said, Agreed, Secret, C.OnServerFinished13;
    RestSaid();
    ClientAccepts(c, p);
    TookOne(c.k.io.wire, Said(5));
  }

  lemma ClientAccepts(c: C.Client, p: Place<C.ClientState>)
    requires ClientAt(c, p) && ClientReady(p) && p.state.ReadServerFinished13? && c.k.io.cache == Some(Said(5))
    ensures var d := C.OnServerFinished13(c, Said(5));
            && d == C.GoWith(c.(h := d.h), d.k, C.SendEndOfEarlyData13, Ok) && d.k.io == Consume(c.k.io, Said(5), true)
            && d.k.keys.schedule.Some? && d.k.keys.schedule.value.hash == 1
            && Handshake in d.k.keys.enc && d.k.keys.enc[Handshake] == c.k.keys.enc[Handshake]
  {
    hide Past, Of, C.Descends, Said, Agreed, Secret, VerifyData, DeriveSecret, ClientLines;
    RestSaid();
  }

  // A turn of the client

  lemma ClientLooks(c: C.Client, m: Message)
    requires ClientReads(c.state) && C.Peeked(c).k.io.cache == Some(m)
    ensures var b, d := C.Peeked(c), C.Step(ClientSide(), c, ClientOracle());
            match c.state
            case ReadServerHello => d == C.OnServerHello(ClientSide(), b, m, ClientOracle())
            case ReadHrr13 => d == C.OnHrr13(ClientSide(), b, m, ClientOracle())
            case ReadServerHello13 => d == C.OnServerHello13(ClientSide(), b, m, ClientOracle())
            case ReadEncryptedExtensions13 => d == C.OnEncryptedExtensions13(ClientSide(), b, m, ClientOracle())
            case ReadServerFinished13 => d == C.OnServerFinished13(b, m)
            case _ => true
  {
    hide C.OnServerHello, C.OnHrr13, C.OnServerHello13, C.OnEncryptedExtensions13, C.OnServerFinished13, C.Descends,
         C.OnQuiet, C.OnMessage12;
  }

  lemma ClientReadsOn(c: C.Client, p: Place<C.ClientState>)
    requires C.HasHandler(c.state) && c.state == p.state && ClientAt(c, p) && ClientReady(p) && ClientReads(p.state)
    ensures ClientAt(C.Step(ClientSide(), c, ClientOracle()), ClientAfter(p))
  {
    hide ClientAt, C.Step, C.Peeked, C.Descends, C.OnServerHello, C.OnHrr13, C.OnServerHello13,
         C.OnEncryptedExtensions13, C.OnServerFinished13, Said, Past;
    var b := C.Peeked(c);
    ClientPeeks(c, p);
    ClientLooks(c, p.waiting[0]);
    match p.state
    case ReadServerHello => ClientSees(b, p);
    case ReadHrr13 => ClientRetries(b, p);
    case ReadServerHello13 => ClientAgrees(b, p);
    case ReadEncryptedExtensions13 => ClientExtends(b, p);
    case ReadServerFinished13 => ClientVerifies(b, p);
  }

  lemma ClientGoesOn(c: C.Client, p: Place<C.ClientState>)
    requires C.HasHandler(c.state) && c.state == p.state && ClientAt(c, p) && ClientReady(p) && !ClientReads(p.state)
    requires p.state.StartConnect? ==> p == Place(C.StartConnect, Ok, [], [])
    ensures ClientAt(C.Step(ClientSide(), c, ClientOracle()), ClientAfter(p))
  {
    hide ClientAt, C.Peeked, C.Descends, C.DoStartConnect, C.DoSendSecondClientHello13, C.DoSendClientFinished13,
         C.OnMessage12, C.OnMessage13, Said, Past;
    if p.state.StartConnect? {
      ClientStarts(c, p);
    } else if p.state.SendSecondClientHello13? {
      ClientRepeats(c, p);
    } else if p.state.SendClientFinished13? {
      ClientFinishes(c, p);
    } else {
      hide C.OnQuiet;
      ClientIdle(c, p);
      ClientPassed(c, C.OnQuiet(ClientSide(), c, ClientOracle()).k, p);
    }
  }

  /** Records that leave do not matter. */
  lemma ClientSettles(d: C.Client, p: Place<C.ClientState>)
    requires ClientAt(d, p) && !p.state.StartConnect?
    ensures ClientAt(C.Settle(d, 0), p)
  {
    hide Pack, SendAlert, Sealed, Of, ClientLines, Past, Keyed, Secret;
  }

  lemma ClientSpoke(c: C.Client, p: Place<C.ClientState>)
    requires ClientAt(c, p)
    ensures c.state == p.state && c.k.io.fed == p.fed && Of(c.k.io.wire, Sent) == ClientLines()[..ClientSaid(p.state)]
    ensures c.end.Running? && c.status == p.status
  {
    hide Of, ClientLines, ClientKnows;
  }

  lemma ClientCan(p: Place<C.ClientState>)
    requires ClientReady(p)
    ensures C.HasHandler(p.state) && p.status != ReadHandshake && p.status != ReadChangeCipherSpec
    ensures ClientSaid(p.state) <= ClientSaid(ClientAfter(p).state) && !ClientAfter(p).state.StartConnect?
    ensures ClientAfter(p).fed == p.fed
  {
    hide Said;
  }

  /** One handler call of the run. */
  lemma ClientTurn(c: C.Client, s: S.Server, p: Place<C.ClientState>) returns (d: C.Client)
    requires Joint(c, s) && ClientAt(c, p) && ClientReady(p)
    requires p.state.StartConnect? ==> p == Place(C.StartConnect, Ok, [], [])
    ensures Joint(d, s) && ClientAt(d, ClientAfter(p))
  {
    hide Joint, ClientAt, C.Step, C.Settle, Of, ClientLines, ClientReady, ClientReads, ClientSaid, ClientAfter;
    ClientSpoke(c, p);
    ClientCan(p);
    d := C.Apply(ClientSide(), c, ClientMove());
    if ClientReads(p.state) { ClientReadsOn(c, p); } else { ClientGoesOn(c, p); }
    ClientSettles(C.Step(ClientSide(), c, ClientOracle()), ClientAfter(p));
    ClientSpoke(d, ClientAfter(p));
    JointFifo(c, s);
    ClientActs(c, s, ClientMove());
  }

  /** Nothing is there to read yet. */
  lemma ClientWaits(c: C.Client, s: S.Server, p: Place<C.ClientState>) returns (d: C.Client)
    requires Joint(c, s) && ClientAt(c, p) && ClientReads(p.state) && p.waiting == []
    requires p.status == Ok || p.status == FlushHandshake
    ensures Joint(d, s) && ClientAt(d, p.(status := ReadHandshake))
  {
    hide Joint, Of, Said, Past, C.OnQuiet, C.OnMessage12, C.OnMessage13, Pack, SendAlert, Sealed, ClientLines, Keyed,
         Secret;
    d := C.Apply(ClientSide(), c, ClientMove());
    JointFifo(c, s);
    ClientActs(c, s, ClientMove());
  }

  /** The next messages of the server arrive. */
  lemma ClientGets(c: C.Client, s: S.Server, p: Place<C.ClientState>, ms: seq<Message>, all: seq<Message>)
    returns (d: C.Client)
    requires Joint(c, s) && ClientAt(c, p) && ClientReads(p.state) && p.waiting == []
    requires p.status == ReadHandshake && all == p.fed + ms && all <= Of(s.k.io.wire, Sent)
    ensures Joint(d, s) && ClientAt(d, Place(p.state, Ok, ms, all))
  {
    hide Joint, Of, Said, Past, C.Turn, ClientLines, Keyed, Secret;
    d := C.Apply(ClientSide(), c, C.Deliver(ms, false));
    JointFifo(c, s);
    ClientActs(c, s, C.Deliver(ms, false));
  }

  // A turn of the server

  lemma ServerPeeks(s: S.Server, p: Place<S.ServerState>)
    requires ServerAt(s, p) && p.waiting != []
    ensures var b := S.Peeked(s);
            ServerAt(b, p) && b.k.io.cache == Some(p.waiting[0]) && b.k.io.incoming == p.waiting[1..]
  {
    hide Said, Past, Secret, Of, ServerLines;
  }

  predicate ServerIdles(s: S.ServerState)
  {
    && ServerPasses(s) && !ServerReads(s) && !s.SendHelloRetryRequest13? && !s.SendServerHello13?
    && !s.SendEncryptedExtensions13? && !s.SendServerFinished13? && !s.StartAccept?
  }

  lemma ServerIdle(s: S.Server, p: Place<S.ServerState>)
    requires ServerAt(s, p) && ServerIdles(p.state)
    ensures !S.Awaits(s) && S.HasHandler(s.state)
    ensures var t := S.OnQuiet(ServerSide(), s, ServerOracle());
            && t == S.GoWith(s, t.k, ServerNext(p.state).0, ServerNext(p.state).1) && t.k.io == s.k.io
            && t.k.keys == s.k.keys
  {
    hide Said, Past, Secret, Agreed, Of, S.Descends, S.DoSendHelloRetryRequest13, S.DoSendServerHello13,
         S.DoSendEncryptedExtensions13, S.DoSendServerFinished13, ServerLines, Keyed;
  }

  lemma ServerPassed(s: S.Server, k: Core, p: Place<S.ServerState>)
    requires ServerAt(s, p) && ServerReady(p) && ServerIdles(p.state) && k.io == s.k.io && k.keys == s.k.keys
    ensures ServerAt(S.GoWith(s, k, ServerNext(p.state).0, ServerNext(p.state).1), ServerAfter(p))
  {
    hide Said, Past, Secret, Agreed, Of, Keyed, ServerLines;
  }

  lemma ServerStarts(s: S.Server, p: Place<S.ServerState>)
    requires ServerAt(s, p) && p == Place(S.StartAccept, Ok, [], [])
    ensures ServerAt(S.Go(s, S.ReadClientHello, Ok), Place(S.ReadClientHello, Ok, [], []))
  {
    hide Said, Past, Secret, Agreed, Of, Keyed, ServerLines;
  }

  lemma ServerRequests(s: S.Server, p: Place<S.ServerState>)
    requires ServerAt(s, p) && p.state.SendHelloRetryRequest13?
    ensures ServerAt(S.DoSendHelloRetryRequest13(s, ServerOracle()),
                     p.(state := S.HrrCompatCcs13, status := FlushHandshake))
  {
    hide Said, Past, Secret, Agreed, Of, S.Descends, Confirmation, S.FirstSchedule;
    AnswersSaid();
    SentOne(s.k.io.wire, Said(1));
  }

  lemma ServerAnswers(s: S.Server, p: Place<S.ServerState>)
    requires ServerAt(s, p) && p.state.SendServerHello13?
    ensures S.DoSendServerHello13(s, ServerOracle()) ==
            var k := S.Put(s.k, Said(3));
            S.GoWith(s, k.(keys := S.HandshakeKeys(k.keys, Agreed(), Past(4))), S.ServerHelloCompatCcs13, PackFlight)
  {
    hide Said, Past, Secret, Of, S.Descends, Confirmation, S.HandshakeKeys, ExtractKey, ServerLines;
    AnswersSaid();
  }

  lemma ServerHellos(s: S.Server, p: Place<S.ServerState>)
    requires ServerAt(s, p) && p.state.SendServerHello13?
    ensures ServerAt(S.DoSendServerHello13(s, ServerOracle()),
                     p.(state := S.ServerHelloCompatCcs13, status := PackFlight))
  {
    hide Said, Past, Of, S.DoSendServerHello13, DeriveSecret, Agreed;
    AnswersSaid();
    ServerAnswers(s, p);
    SentOne(s.k.io.wire, Said(3));
  }

  lemma ServerExtends(s: S.Server, p: Place<S.ServerState>)
    requires ServerAt(s, p) && p.state.SendEncryptedExtensions13?
    ensures ServerAt(S.DoSendEncryptedExtensions13(ServerSide(), s, ServerOracle()),
                     p.(state := S.SendServerFinished13, status := Ok))
  {
    hide Said, Past, Secret, Agreed, Of, Keyed, S.DoSendEncryptedExtensions13;
    RestSaid();
    ServerPuts(s, p);
    SentOne(s.k.io.wire, Said(4));
  }

  lemma ServerPuts(s: S.Server, p: Place<S.ServerState>)
    requires ServerAt(s, p) && p.state.SendEncryptedExtensions13?
    ensures S.DoSendEncryptedExtensions13(ServerSide(), s, ServerOracle())
            == S.GoWith(s, S.Put(SetupWrite(s.k, Handshake), Said(4)), S.SendServerFinished13, Ok)
  {
    hide Said, Past, Secret, Agreed, Of, Keyed, S.Descends, ServerLines, SetupWrite;
    RestSaid();
  }

  lemma ServerProves(s: S.Server, p: Place<S.ServerState>)
    requires ServerAt(s, p) && p.state.SendServerFinished13?
    ensures var t := S.DoSendServerFinished13(s);
            && t == S.GoWith(s.(h := t.h), t.k, S.ReadSecondClientFlight13, FlushHandshake)
            && t.k.io == Add(s.k.io, Said(5), true) && t.k.keys.schedule.Some? && t.k.keys.schedule.value.hash == 1
            && Handshake in t.k.keys.dec && t.k.keys.dec[Handshake] == s.k.keys.dec[Handshake]
  {
    hide Said, Past, Secret, Agreed, Of, S.Descends, VerifyData, DeriveSecret, ServerLines;
    RestSaid();
  }

  lemma ServerFinishes(s: S.Server, p: Place<S.ServerState>)
    requires ServerAt(s, p) && p.state.SendServerFinished13?
    ensures ServerAt(S.DoSendServerFinished13(s), p.(state := S.ReadSecondClientFlight13, status := FlushHandshake))
  {
    hide Said, Past, Secret, Agreed, Of, S.DoSendServerFinished13;
    RestSaid();
    ServerProves(s, p);
    SentOne(s.k.io.wire, Said(5));
  }

  lemma ServerSees(s: S.Server, p: Place<S.ServerState>)
    requires ServerAt(s, p) && ServerReady(p) && p.state.ReadClientHello? && s.k.io.cache == Some(Said(0))
    ensures ServerAt(S.OnClientHello(ServerSide(), s, Said(0), ServerOracle()), ServerAfter(p))
  {
    hide Past, Secret, Agreed, Of, S.Descends, Said;
    HellosSaid();
  }

  lemma ServerSelects(s: S.Server, p: Place<S.ServerState>)
    requires ServerAt(s, p) && ServerReady(p) && p.state.SelectParameters13? && s.k.io.cache == Some(Said(0))
    ensures ServerAt(S.OnSelectParameters13(ServerSide(), s, Said(0), ServerOracle()), ServerAfter(p))
  {
    hide Past, Secret, Agreed, Of, S.Descends, Said, S.FirstSchedule;
    HellosSaid();
    assert [] + [Msg(Seen(Said(0), true))] == Past(1);
    TookOne(s.k.io.wire, Said(0));
  }

  lemma ServerTakes(s: S.Server, p: Place<S.ServerState>)
    requires ServerAt(s, p) && ServerReady(p) && p.state.ReadSecondClientHello13? && s.k.io.cache == Some(Said(2))
    ensures ServerAt(S.OnSecondClientHello13(s, Said(2), ServerOracle()), ServerAfter(p))
  {
    hide Past, Secret, Agreed, Of, S.Descends, Said, S.FirstSchedule;
    HellosSaid();
    TookOne(s.k.io.wire, Said(2));
  }

  lemma ServerVerifies(s: S.Server, p: Place<S.ServerState>)
    requires ServerAt(s, p) && ServerReady(p) && p.state.ReadClientFinished13? && s.k.io.cache == Some(Said(6))
    ensures ServerAt(S.OnClientFinished13(s, Said(6)), ServerAfter(p))
  {
    hide Past, Secret, Agreed, Of, S.Descends, Said, VerifyData;
    RestSaid();
    TookOne(s.k.io.wire, Said(6));
  }

  lemma ServerLooks(s: S.Server, m: Message)
    requires ServerReads(s.state) && S.Peeked(s).k.io.cache == Some(m)
    ensures var b, t := S.Peeked(s), S.Step(ServerSide(), s, ServerOracle());
            match s.state
            case ReadClientHello => t == S.OnClientHello(ServerSide(), b, m, ServerOracle())
            case SelectParameters13 => t == S.OnSelectParameters13(ServerSide(), b, m, ServerOracle())
            case ReadSecondClientHello13 => t == S.OnSecondClientHello13(b, m, ServerOracle())
            case ReadClientFinished13 => t == S.OnClientFinished13(b, m)
            case _ => true
  {
    hide S.OnClientHello, S.OnSelectParameters13, S.OnSecondClientHello13, S.OnClientFinished13, S.Descends,
         S.OnQuiet, S.OnMessage12;
  }

  lemma ServerReadsOn(s: S.Server, p: Place<S.ServerState>)
    requires S.HasHandler(s.state) && s.state == p.state && ServerAt(s, p) && ServerReady(p) && ServerReads(p.state)
    ensures ServerAt(S.Step(ServerSide(), s, ServerOracle()), ServerAfter(p))
  {
    hide ServerAt, S.Step, S.Peeked, S.Descends, S.OnClientHello, S.OnSelectParameters13, S.OnSecondClientHello13,
         S.OnClientFinished13, Said, Past;
    var b := S.Peeked(s);
    ServerPeeks(s, p);
    ServerLooks(s, p.waiting[0]);
    match p.state
    case ReadClientHello => ServerSees(b, p);
    case SelectParameters13 => ServerSelects(b, p);
    case ReadSecondClientHello13 => ServerTakes(b, p);
    case ReadClientFinished13 => ServerVerifies(b, p);
  }

  lemma ServerGoesOn(s: S.Server, p: Place<S.ServerState>)
    requires S.HasHandler(s.state) && s.state == p.state && ServerAt(s, p) && ServerReady(p) && !ServerReads(p.state)
    requires p.state.StartAccept? ==> p == Place(S.StartAccept, Ok, [], [])
    ensures ServerAt(S.Step(ServerSide(), s, ServerOracle()), ServerAfter(p))
  {
    hide ServerAt, S.Peeked, S.Descends, S.DoSendHelloRetryRequest13, S.DoSendServerHello13,
         S.DoSendEncryptedExtensions13, S.DoSendServerFinished13, S.OnMessage12, S.OnMessage13, Said, Past;
    if p.state.StartAccept? {
      ServerStarts(s, p);
    } else if p.state.SendHelloRetryRequest13? {
      ServerRequests(s, p);
    } else if p.state.SendServerHello13? {
      ServerHellos(s, p);
    } else if p.state.SendEncryptedExtensions13? {
      ServerExtends(s, p);
    } else if p.state.SendServerFinished13? {
      ServerFinishes(s, p);
    } else {
      hide S.OnQuiet;
      ServerIdle(s, p);
      ServerPassed(s, S.OnQuiet(ServerSide(), s, ServerOracle()).k, p);
    }
  }

  lemma ServerSettles(s: S.Server, p: Place<S.ServerState>)
    requires ServerAt(s, p) && !p.state.StartAccept?
    ensures ServerAt(S.Settle(s, 0), p)
  {
    hide Pack, SendAlert, Sealed, Of, ServerLines, Past, Keyed, Secret;
  }

  lemma ServerSpoke(s: S.Server, p: Place<S.ServerState>)
    requires ServerAt(s, p)
    ensures s.state == p.state && s.k.io.fed == p.fed && Of(s.k.io.wire, Sent) == ServerLines()[..ServerSaid(p.state)]
    ensures s.end.Running? && s.status == p.status
  {
    hide Of, ServerLines, ServerKnows;
  }

  lemma ServerCan(p: Place<S.ServerState>)
    requires ServerReady(p)
    ensures S.HasHandler(p.state) && (p.status == Ok || p.status == PackFlight || p.status == FlushHandshake)
    ensures ServerSaid(p.state) <= ServerSaid(ServerAfter(p).state) && !ServerAfter(p).state.StartAccept?
    ensures ServerAfter(p).fed == p.fed
  {
    hide Said;
  }

  /** One handler call of the run. */
  lemma ServerTurn(c: C.Client, s: S.Server, p: Place<S.ServerState>) returns (t: S.Server)
    requires Joint(c, s) && ServerAt(s, p) && ServerReady(p)
    requires p.state.StartAccept? ==> p == Place(S.StartAccept, Ok, [], [])
    ensures Joint(c, t) && ServerAt(t, ServerAfter(p))
  {
    hide Joint, ServerAt, S.Step, S.Settle, Of, ServerLines, ServerReady, ServerReads, ServerSaid, ServerAfter;
    ServerSpoke(s, p);
    ServerCan(p);
    t := S.Apply(ServerSide(), s, ServerMove());
    if ServerReads(p.state) { ServerReadsOn(s, p); } else { ServerGoesOn(s, p); }
    ServerSettles(S.Step(ServerSide(), s, ServerOracle()), ServerAfter(p));
    ServerSpoke(t, ServerAfter(p));
    JointFifo(c, s);
    ServerActs(c, s, ServerMove());
  }

  lemma ServerWaits(c: C.Client, s: S.Server, p: Place<S.ServerState>) returns (t: S.Server)
    requires Joint(c, s) && ServerAt(s, p) && ServerReads(p.state) && p.waiting == []
    requires p.status == Ok
    ensures Joint(c, t) && ServerAt(t, p.(status := ReadHandshake))
  {
    hide Joint, Of, Said, Past, S.OnQuiet, S.OnMessage12, S.OnMessage13, Pack, SendAlert, Sealed, ServerLines, Keyed,
         Secret;
    t := S.Apply(ServerSide(), s, ServerMove());
    JointFifo(c, s);
    ServerActs(c, s, ServerMove());
  }

  /** The next messages of the client arrive. */
  lemma ServerGets(c: C.Client, s: S.Server, p: Place<S.ServerState>, ms: seq<Message>, all: seq<Message>)
    returns (t: S.Server)
    requires Joint(c, s) && ServerAt(s, p) && ServerReads(p.state) && p.waiting == []
    requires p.status == ReadHandshake && all == p.fed + ms && all <= Of(c.k.io.wire, Sent)
    ensures Joint(c, t) && ServerAt(t, Place(p.state, Ok, ms, all))
  {
    hide Joint, Of, Said, Past, S.Turn, ServerLines, Keyed, Secret;
    t := S.Apply(ServerSide(), s, S.Deliver(ms, false));
    JointFifo(c, s);
    ServerActs(c, s, S.Deliver(ms, false));
  }

  // The run

  lemma Starts()
    ensures Joint(C.NewClient(), S.NewServer())
    ensures ClientAt(C.NewClient(), Place(C.StartConnect, Ok, [], []))
    ensures ServerAt(S.NewServer(), Place(S.StartAccept, Ok, [], []))
  {
    hide Said, Past;
    assert Run(ClientSide(), ServerSide(), C.NewClient(), S.NewServer(), 0);
  }

  /** The first hello, and the server's request for another one. */
  lemma Opening() returns (c: C.Client, s: S.Server)
    ensures Joint(c, s) && ClientAt(c, Place(C.ReadServerHello, ReadHandshake, [], []))
    ensures ServerAt(s, Place(S.ReadSecondClientHello13, ReadHandshake, [], [Said(0)]))
  {
    hide Joint, ClientAt, ServerAt, Of, Said, Past, C.NewClient, S.NewServer;
    c, s := C.NewClient(), S.NewServer();
    Starts();
    c := ClientTurn(c, s, Place(C.StartConnect, Ok, [], []));
    c := ClientTurn(c, s, Place(C.EnterEarlyData, FlushHandshake, [], []));
    c := ClientWaits(c, s, Place(C.ReadServerHello, Ok, [], []));
    ClientSpoke(c, Place(C.ReadServerHello, ReadHandshake, [], []));
    s := ServerTurn(c, s, Place(S.StartAccept, Ok, [], []));
    s := ServerWaits(c, s, Place(S.ReadClientHello, Ok, [], []));
    s := ServerGets(c, s, Place(S.ReadClientHello, ReadHandshake, [], []), [Said(0)], [Said(0)]);
    s := ServerTurn(c, s, Place(S.ReadClientHello, Ok, [Said(0)], [Said(0)]));
    s := ServerTurn(c, s, Place(S.SelectParameters13, Ok, [Said(0)], [Said(0)]));
    s := ServerTurn(c, s, Place(S.SendHelloRetryRequest13, Ok, [], [Said(0)]));
    s := ServerTurn(c, s, Place(S.HrrCompatCcs13, FlushHandshake, [], [Said(0)]));
    s := ServerWaits(c, s, Place(S.ReadSecondClientHello13, Ok, [], [Said(0)]));
  }

  /** The second hello. */
  lemma Again() returns (c: C.Client, s: S.Server)
    ensures Joint(c, s) && ClientAt(c, Place(C.ReadServerHello13, ReadHandshake, [], [Said(1)]))
    ensures ServerAt(s, Place(S.ReadSecondClientHello13, ReadHandshake, [], [Said(0)]))
  {
    hide Joint, ClientAt, ServerAt, Of, Said, Past;
    c, s := Opening();
    ServerSpoke(s, Place(S.ReadSecondClientHello13, ReadHandshake, [], [Said(0)]));
    var heard := [Said(1)];
    c := ClientGets(c, s, Place(C.ReadServerHello, ReadHandshake, [], []), heard, heard);
    c := ClientTurn(c, s, Place(C.ReadServerHello, Ok, heard, heard));
    c := ClientTurn(c, s, Place(C.CompatCcs13, Ok, heard, heard));
    c := ClientTurn(c, s, Place(C.ReadHrr13, Ok, heard, heard));
    c := ClientTurn(c, s, Place(C.SendSecondClientHello13, Ok, [], heard));
    c := ClientWaits(c, s, Place(C.ReadServerHello13, FlushHandshake, [], heard));
  }

  /** The server's flight. */
  lemma Middle() returns (c: C.Client, s: S.Server)
    ensures Joint(c, s) && ClientAt(c, Place(C.ReadServerHello13, ReadHandshake, [], [Said(1)]))
    ensures ServerAt(s, Place(S.ReadSecondClientFlight13, FlushHandshake, [], [Said(0), Said(2)]))
  {
    hide Joint, ClientAt, ServerAt, Of, Said, Past;
    c, s := Again();
    ClientSpoke(c, Place(C.ReadServerHello13, ReadHandshake, [], [Said(1)]));
    var heard := [Said(0), Said(2)];
    s := ServerGets(c, s, Place(S.ReadSecondClientHello13, ReadHandshake, [], [Said(0)]), [Said(2)], heard);
    hide ServerLines, ClientLines;
    s := ServerTurn(c, s, Place(S.ReadSecondClientHello13, Ok, [Said(2)], heard));
    s := ServerTurn(c, s, Place(S.SendServerHello13, Ok, [], heard));
    s := ServerTurn(c, s, Place(S.ServerHelloCompatCcs13, PackFlight, [], heard));
    s := ServerTurn(c, s, Place(S.SendEncryptedExtensions13, Ok, [], heard));
    s := ServerTurn(c, s, Place(S.SendServerFinished13, Ok, [], heard));
  }

  /** The server goes on to await the client's Finished. */
  lemma Awaits() returns (c: C.Client, s: S.Server)
    ensures Joint(c, s) && ClientAt(c, Place(C.ReadServerHello13, ReadHandshake, [], [Said(1)]))
    ensures ServerAt(s, Place(S.ReadClientFinished13, ReadHandshake, [], [Said(0), Said(2)]))
  {
    hide Joint, ClientAt, ServerAt, Of, Said, Past, ServerLines, ClientLines;
    c, s := Middle();
    var heard := [Said(0), Said(2)];
    s := ServerTurn(c, s, Place(S.ReadSecondClientFlight13, FlushHandshake, [], heard));
    s := ServerTurn(c, s, Place(S.ProcessEndOfEarlyData13, Ok, [], heard));
    s := ServerTurn(c, s, Place(S.ReadClientEncryptedExtensions13, Ok, [], heard));
    s := ServerTurn(c, s, Place(S.ReadClientCertificate13, Ok, [], heard));
    s := ServerWaits(c, s, Place(S.ReadClientFinished13, Ok, [], heard));
  }

  /** The client gets to the server's Finished. */
  lemma Looks() returns (c: C.Client, s: S.Server)
    ensures Joint(c, s) && ClientAt(c, Place(C.ReadServerFinished13, Ok, [Said(5)], ServerLines()))
    ensures ServerAt(s, Place(S.ReadClientFinished13, ReadHandshake, [], [Said(0), Said(2)]))
  {
    hide Joint, ClientAt, ServerAt, Of, Said, Past;
    c, s := Awaits();
    ServerSpoke(s, Place(S.ReadClientFinished13, ReadHandshake, [], [Said(0), Said(2)]));
    var heard := [Said(1), Said(3)];
    c := ClientGets(c, s, Place(C.ReadServerHello13, ReadHandshake, [], [Said(1)]), [Said(3)], heard);
    c := ClientTurn(c, s, Place(C.ReadServerHello13, Ok, [Said(3)], heard));
    c := ClientWaits(c, s, Place(C.ReadEncryptedExtensions13, Ok, [], heard));
    c := ClientGets(c, s, Place(C.ReadEncryptedExtensions13, ReadHandshake, [], heard), [Said(4), Said(5)],
                    ServerLines());
    c := ClientTurn(c, s, Place(C.ReadEncryptedExtensions13, Ok, [Said(4), Said(5)], ServerLines()));
    c := ClientTurn(c, s, Place(C.ReadCertificateRequest13, Ok, [Said(5)], ServerLines()));
  }

  /** The server gets to the client's. */
  lemma Late() returns (c: C.Client, s: S.Server)
    ensures Joint(c, s) && ClientAt(c, Place(C.Done, Ok, [], ServerLines()))
    ensures ServerAt(s, Place(S.ReadClientFinished13, Ok, [Said(6)], ClientLines()))
  {
    hide Joint, ClientAt, ServerAt, Of, Said, Past, ServerLines;
    c, s := Looks();
    c := ClientTurn(c, s, Place(C.ReadServerFinished13, Ok, [Said(5)], ServerLines()));
    c := ClientTurn(c, s, Place(C.SendEndOfEarlyData13, Ok, [], ServerLines()));
    c := ClientTurn(c, s, Place(C.SendClientEncryptedExtensions13, PackFlight, [], ServerLines()));
    c := ClientTurn(c, s, Place(C.SendClientCertificate13, Ok, [], ServerLines()));
    c := ClientTurn(c, s, Place(C.SendClientFinished13, Ok, [], ServerLines()));
    c := ClientTurn(c, s, Place(C.CompleteSecondFlight13, FlushHandshake, [], ServerLines()));
    c := ClientTurn(c, s, Place(C.FinishClientHandshake, Ok, [], ServerLines()));
    ClientSpoke(c, Place(C.Done, Ok, [], ServerLines()));
    s := ServerGets(c, s, Place(S.ReadClientFinished13, ReadHandshake, [], [Said(0), Said(2)]), [Said(6)],
                    ClientLines());
  }

  lemma Closing() returns (c: C.Client, s: S.Server)
    ensures Joint(c, s) && ClientAt(c, Place(C.Done, Ok, [], ServerLines()))
    ensures ServerAt(s, Place(S.Done, Ok, [], ClientLines()))
  {
    hide Joint, ClientAt, ServerAt, Of, Said, Past, ServerLines, ClientLines;
    c, s := Late();
    s := ServerTurn(c, s, Place(S.ReadClientFinished13, Ok, [Said(6)], ClientLines()));
    s := ServerTurn(c, s, Place(S.SendNewSessionTicket13, Ok, [], ClientLines()));
    s := ServerTurn(c, s, Place(S.FinishServerHandshake, Ok, [], ClientLines()));
  }

  /** There is a joint run in which the client looks at the server's Finished, after a HelloRetryRequest and with
      its inner hello in force. */
  lemma FinishedIsReached()
    ensures C.ConfigOk(ClientSide()) && TicketsMatch(ClientSide(), ServerSide())
    ensures exists c, s, n: nat, v ::
              && Run(ClientSide(), ServerSide(), c, s, n) && s.end.Running? && Looking(c, v)
              && c.f.retried && c.f.reused && c.f.ech == Accepted && c.f.innerOn
  {
    hide Run, Of, S.FirstSchedule, Said, Past, Secret, ServerLines, ClientLines, Keyed, ServerKnows;
    var c, s := Looks();
    var n: nat :| Run(ClientSide(), ServerSide(), c, s, n);
    RestSaid();
    ClientPeeks(c, Place(C.ReadServerFinished13, Ok, [Said(5)], ServerLines()));
    assert Looking(c, Said(5).verify);
  }

  /** One in which the server looks at the client's. */
  lemma ClosingIsReached()
    ensures exists c, s, n: nat, u ::
              && Run(ClientSide(), ServerSide(), c, s, n) && c.end.Running? && s.end.Running?
              && s.state.ReadClientFinished13? && Peek(s.k.io).cache == Some(FinishedMsg(u))
  {
    hide Run, Of, Past, Secret, ServerLines, ClientLines;
    var c, s := Late();
    var n: nat :| Run(ClientSide(), ServerSide(), c, s, n);
    RestSaid();
    ServerPeeks(s, Place(S.ReadClientFinished13, Ok, [Said(6)], ClientLines()));
    assert Peek(s.k.io).cache == Some(FinishedMsg(Said(6).verify));
  }

  /** And one in which both are done, with nothing under way. */
  lemma DoneIsReached()
    ensures exists c, s, n: nat ::
              && Run(ClientSide(), ServerSide(), c, s, n) && c.end.Running? && c.state.Done? && c.f.version13
              && s.end.Running? && s.state.Done?
              && Of(c.k.io.wire, Received) == Of(s.k.io.wire, Sent)
              && Of(s.k.io.wire, Received) == Of(c.k.io.wire, Sent)
  {
    hide Run, Of, C.Reachable, S.Reachable, CI.Updated, CI.Accepts, CI.Finishes, Fifo, Past, Said;
    var c, s := Closing();
    var n: nat :| Run(ClientSide(), ServerSide(), c, s, n);
    RunReaches(ClientSide(), ServerSide(), c, s, n);
    var i: nat :| C.Reachable(ClientSide(), c, i);
    var j: nat :| S.Reachable(ServerSide(), s, j);
    ClientFacts(ClientSide(), c, i);
    ServerConserved(ServerSide(), s, j);
    assert Of(c.k.io.wire, Received) == c.k.io.fed && Of(s.k.io.wire, Received) == s.k.io.fed;
  }
}
