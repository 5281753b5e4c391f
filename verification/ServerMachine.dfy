/** src/simple_tls/tls/handshake_server.py: the server's dispatch table, one function per
    handler, over arbitrary peer input. */
module ServerMachine {
  import opened Wire
  import opened HandshakeCore

  datatype ServerState =
    | StartAccept | ReadClientHello | SelectParameters | SendServerHello | SendServerCertificate
    | SendServerKeyExchange | SendServerHelloDone | ReadClientCertificate | VerifyClientCertificate
    | ReadClientKeyExchange | ReadClientCertificateVerify | AwaitChangeCipherSpec | ProcessChangeCipherSpec
    | ReadNextProto | ReadClientFinished | SendSessionTicket | SendChangeCipherSpec | SendServerFinished
    | SelectParameters13 | SendHelloRetryRequest13 | HrrCompatCcs13 | ReadSecondClientHello13 | SendServerHello13
    | ServerHelloCompatCcs13 | SendEncryptedExtensions13 | SendServerFinished13 | ReadSecondClientFlight13
    | ProcessEndOfEarlyData13 | ReadClientEncryptedExtensions13 | ReadClientCertificate13
    | ReadClientCertificateVerify13 | ReadClientFinished13 | SendNewSessionTicket13
    | FinishServerHandshake | Done
    | ReadPostHandshake | ProcessUpdateTraffic | CompleteUpdateTraffic

  /** VerifyMode: whether client certificates are asked for and whether one must come. */
  datatype ClientAuth = NotAsked | Optional | Required

  /** `open` gives the secret in a ticket of this server's, and `None` for any other. */
  datatype Config = Config(
    tls13: bool, middlebox: bool, ech: bool, earlyData: bool, auth: ClientAuth, tickets: bool,
    open: nat -> Option<Term>)

  /** `innerOn`: ECH was accepted, so the inner hellos are what the transcript sees. */
  datatype Flags = Flags(version13: bool, reused: bool, retried: bool, innerOn: bool, early: Tri, inEarly: bool)

  datatype Extras = Extras(
    anon: bool, rsa: bool, ticketExpected: bool, npn: bool, alps: bool, certRequested: bool, hasCert: bool,
    traffic: Option<(Term, Term)>)

  /** What the server took from the hellos: the random, the share of the chosen group, and the group
      it asked for in a retry. */
  datatype Taken = Taken(random: nat, peer: Option<(nat, nat)>, regroup: Option<nat>)

  datatype Server = Server(
    k: Core, state: ServerState, status: Status, end: End, f: Flags, x: Extras, psk: Option<Schedule>, t: Taken,
    h: History)

  function NewServer(): Server
  {
    Server(NewCore(), StartAccept, Ok, Running, Flags(false, false, false, false, Undecided, false),
           Extras(false, false, false, false, false, false, false, None), None, Taken(0, None, None),
           History([], [], [], 0, 0))
  }

  /** Everything a step does not compute itself: peer content that is only tested, random
      values, results of foreign checks. A run may take any value at any step. */
  datatype Oracle = Oracle(
    ok: bool, data: nat, tls13: bool, decrypted: bool, hash: nat, resume: bool, cookie: bool, group: nat,
    exchange: bool, earlyOffered: bool, earlyOk: bool, x: Extras, present: bool, chainOk: bool, signatureOk: bool,
    optional: bool, secret: nat, records: nat)

  function ViewOf(c: Server): View { View(c.f.version13, c.f.innerOn) }

  // Outcomes

  function Fail(c: Server): Server { c.(end := Alerted) }

  function Crash(c: Server): Server { c.(end := Crashed) }

  function Go(c: Server, s: ServerState, st: Status): Server { c.(state := s, status := st) }

  function GoWith(c: Server, k: Core, s: ServerState, st: Status): Server { c.(k := k, state := s, status := st) }

  /** _next_handshake(), where set_message has put an inner hello in place of the outer one. */
  function Next(c: Server): Core
    requires c.k.io.cache.Some?
  {
    c.k.(io := Consume(c.k.io, Seen(c.k.io.cache.value, c.f.innerOn), true))
  }

  /** _next_handshake(update_hash=False) */
  function NextUnhashed(c: Server): Core
    requires c.k.io.cache.Some?
  {
    c.k.(io := Consume(c.k.io, c.k.io.cache.value, false))
  }

  /** _add_message */
  function Put(k: Core, m: Message): Core { k.(io := Add(k.io, m, true)) }

  /** Only a check that passed is recorded. */
  function Checked(c: Server, passed: bool, x: Check): Server
    requires passed
  {
    c.(h := c.h.(checks := c.h.checks + [x]))
  }

  // The dispatch loop's progress

  predicate HasHandler(s: ServerState) { !s.Done? }

  /** A rank of the dispatch table. A resumed TLS 1.2 handshake sends its Finished first. */
  function Rank(s: ServerState, reused: bool): (r: nat)
  {
    match s
    case StartAccept => 40
    case ReadClientHello => 39
    case SelectParameters => 38
    case SendServerHello => 37
    case SendServerCertificate => 36
    case SendServerKeyExchange => 35
    case SendServerHelloDone => 34
    case ReadClientCertificate => 33
    case VerifyClientCertificate => 32
    case ReadClientKeyExchange => 31
    case ReadClientCertificateVerify => 30
    case AwaitChangeCipherSpec => if reused then 12 else 29
    case ProcessChangeCipherSpec => if reused then 11 else 28
    case ReadNextProto => if reused then 10 else 27
    case ReadClientFinished => if reused then 9 else 26
    case SendSessionTicket => 25
    case SendChangeCipherSpec => 24
    case SendServerFinished => 23
    case SelectParameters13 => 38
    case SendHelloRetryRequest13 => 37
    case HrrCompatCcs13 => 36
    case ReadSecondClientHello13 => 35
    case SendServerHello13 => 34
    case ServerHelloCompatCcs13 => 33
    case SendEncryptedExtensions13 => 32
    case SendServerFinished13 => 31
    case ReadSecondClientFlight13 => 30
    case ProcessEndOfEarlyData13 => 29
    case ReadClientEncryptedExtensions13 => 28
    case ReadClientCertificate13 => 27
    case ReadClientCertificateVerify13 => 26
    case ReadClientFinished13 => 25
    case SendNewSessionTicket13 => 24
    case FinishServerHandshake => 4
    case ReadPostHandshake => 3
    case ProcessUpdateTraffic => 2
    case CompleteUpdateTraffic => 1
    case Done => 0
  }

  /** `d` came from `c` by a handler that kept the loop's promise. */
  predicate Descends(c: Server, d: Server)
  {
    d.end.Running? ==>
      || (d.status == ReadHandshake && d.state == c.state && !c.state.StartAccept?)
      || Rank(d.state, d.f.reused) < Rank(c.state, c.f.reused)
      || (d.state == c.state == ReadPostHandshake && Unread(d.k.io) < Unread(c.k.io))
  }

  // Handlers that do not read: TLS 1.2

  function DoSendServerHello(c: Server, o: Oracle): (d: Server)
    requires c.state.SendServerHello?
    ensures Descends(c, d)
  {
    GoWith(c, Put(c.k, ServerHello(o.data, false, false, 0, false, None, None)),
           if c.f.reused then SendSessionTicket else SendServerCertificate, Ok)
  }

  function DoSendServerCertificate(c: Server, o: Oracle): (d: Server)
    requires c.state.SendServerCertificate?
    ensures Descends(c, d)
  {
    if c.x.anon then Go(c, SendServerKeyExchange, Ok)
    else GoWith(c, Put(c.k, Certificate(o.data)), SendServerKeyExchange, Ok)
  }

  function DoSendServerKeyExchange(c: Server, o: Oracle): (d: Server)
    requires c.state.SendServerKeyExchange?
    ensures Descends(c, d)
  {
    if c.x.rsa then Go(c, SendServerHelloDone, Ok)
    else GoWith(c, Put(c.k, ServerKeyExchange(o.data)), SendServerHelloDone, Ok)
  }

  function DoSendServerHelloDone(c: Server, o: Oracle): (d: Server)
    requires c.state.SendServerHelloDone?
    ensures Descends(c, d)
  {
    if !o.ok then Fail(c) else
    var k1 := if c.x.certRequested then Put(c.k, CertificateRequest(o.data)) else c.k;
    GoWith(c, Put(k1, ServerHelloDone), ReadClientCertificate, FlushHandshake)
  }

  function DoVerifyClientCertificate(c: Server, o: Oracle): (d: Server)
    requires c.state.VerifyClientCertificate?
    ensures Descends(c, d)
  {
    if c.x.hasCert && !o.chainOk then Fail(c) else Go(c, ReadClientKeyExchange, Ok)
  }

  function DoProcessChangeCipherSpec(c: Server): (d: Server)
    requires c.state.ProcessChangeCipherSpec?
    ensures Descends(c, d)
  {
    if c.x.traffic.None? then Crash(c)
    else GoWith(c, InstallRead(c.k, Some(c.x.traffic.value.1)), ReadNextProto, Ok)
  }

  function DoSendSessionTicket(c: Server, o: Oracle): (d: Server)
    requires c.state.SendSessionTicket?
    ensures Descends(c, d)
  {
    if c.x.ticketExpected && o.optional
    then GoWith(c, Put(c.k, SessionTicket(o.data)), SendChangeCipherSpec, PackFlight)
    else Go(c, SendChangeCipherSpec, PackFlight)
  }

  function DoSendServerFinished(c: Server, o: Oracle): (d: Server)
    requires c.state.SendServerFinished?
    ensures Descends(c, d)
  {
    if c.x.traffic.None? then Crash(c) else
    var k := InstallWrite(c.k, Some(c.x.traffic.value.0));
    GoWith(c, Put(k, FinishedMsg(Atom(o.secret))),
           if c.f.reused then AwaitChangeCipherSpec else FinishServerHandshake, FlushHandshake)
  }

  // Handlers that do not read: TLS 1.3

  /** _apply_ech_acceptance: the confirmation goes into a hello that had its place zeroed. */
  function Apply13(c: Server, m: Message): (r: Message)
    requires m.ServerHello? && m.confirm.None?
    ensures r.ServerHello? && r == m.(confirm := r.confirm)
  {
    if c.f.innerOn then m.(confirm := Some(Confirmation(c.t.random, c.k.io.transcript, m))) else m
  }

  function RetryRequest(c: Server, hash: nat, data: nat): Message
  {
    Apply13(c, ServerHello(data, true, true, hash, false,
                           if c.t.regroup.Some? then Some((c.t.regroup.value, 0)) else None, None))
  }

  /** The transcript was rewritten one handler before. */
  function DoSendHelloRetryRequest13(c: Server, o: Oracle): (d: Server)
    requires c.state.SendHelloRetryRequest13?
    ensures Descends(c, d)
  {
    if c.k.keys.schedule.None? then Crash(c) else
    GoWith(c.(f := c.f.(retried := true)), Put(c.k, RetryRequest(c, c.k.keys.schedule.value.hash, o.data)),
           HrrCompatCcs13, FlushHandshake)
  }

  /** Both handshake secrets, derived after the ServerHello entered the transcript. */
  function HandshakeKeys(keys: Keys, s: Schedule, t: Transcript): Keys
  {
    Keys(Some(s), keys.enc[Handshake := DeriveSecret(s, ServerHs, t)],
         keys.dec[Handshake := DeriveSecret(s, ClientHs, t)])
  }

  /** The hello carries a share of the chosen group, made of the private number `y`. */
  function ServerHello13(c: Server, hash: nat, data: nat, y: nat): Message
  {
    Apply13(c, ServerHello(data, false, true, hash, c.f.reused,
                           if c.t.peer.Some? then Some((c.t.peer.value.0, y)) else None, None))
  }

  function KeyExchange(c: Server, y: nat): Option<Term>
  {
    if c.t.peer.Some? then Some(Exchange(y, c.t.peer.value.1)) else None
  }

  function DoSendServerHello13(c: Server, o: Oracle): (d: Server)
    requires c.state.SendServerHello13?
    ensures Descends(c, d)
  {
    var s := c.k.keys.schedule;
    if s.None? || s.value.generation != 1 then Crash(c)
    else if !o.ok then Fail(c)
    else
      var k := Put(c.k, ServerHello13(c, s.value.hash, o.data, o.secret));
      GoWith(c, k.(keys := HandshakeKeys(k.keys, ExtractKey(s.value, KeyExchange(c, o.secret)), k.io.transcript)),
             ServerHelloCompatCcs13, PackFlight)
  }

  /** CertificateRequest if client certificates are wanted, Certificate, CertificateVerify. */
  function SendCertificates(g: Config, k: Core, o: Oracle): Core
  {
    var k1 := if g.auth.NotAsked? then k else Put(k, CertificateRequest(o.data));
    Put(Put(k1, Certificate(o.data)), CertificateVerify(o.data))
  }

  function DoSendEncryptedExtensions13(g: Config, c: Server, o: Oracle): (d: Server)
    requires c.state.SendEncryptedExtensions13?
    ensures Descends(c, d)
  {
    var k := Put(SetupWrite(c.k, Handshake), EncryptedExtensions(o.data, c.f.early == Accepted));
    if c.f.reused then GoWith(c, k, SendServerFinished13, Ok)
    else GoWith(c.(x := c.x.(certRequested := !g.auth.NotAsked?)), SendCertificates(g, k, o), SendServerFinished13, Ok)
  }

  function ApplicationKeys(keys: Keys, s: Schedule, t: Transcript): Keys
  {
    Keys(Some(s), keys.enc[ApplicationData := DeriveSecret(s, ServerAp, t)],
         keys.dec[ApplicationData := DeriveSecret(s, ClientAp, t)])
  }

  function DoSendServerFinished13(c: Server): (d: Server)
    requires c.state.SendServerFinished13?
    ensures Descends(c, d)
  {
    var s := c.k.keys.schedule;
    if s.None? || s.value.generation != 2 || Handshake !in c.k.keys.enc then Crash(c) else
    var k := Put(c.k, FinishedMsg(VerifyData(s.value.hash, c.k.keys.enc[Handshake], c.k.io.transcript)));
    GoWith(c.(h := c.h.(at := c.k.io.transcript, mark := |c.k.io.wire|)),
           k.(keys := ApplicationKeys(k.keys, ExtractKey(s.value, None), k.io.transcript)),
           ReadSecondClientFlight13, FlushHandshake)
  }

  function DoReadSecondClientFlight13(c: Server): (d: Server)
    requires c.state.ReadSecondClientFlight13?
    ensures Descends(c, d)
  {
    var k := SetupWrite(c.k, ApplicationData);
    if c.f.early != Accepted then GoWith(c, k, ProcessEndOfEarlyData13, Ok)
    else GoWith(c.(f := c.f.(inEarly := true)), SetupRead(k, ZeroRtt), ProcessEndOfEarlyData13, ReadEndOfEarlyData)
  }

  /** _add_message(..., update_hash=False) */
  function PutTicket(k: Core, data: nat): Core { k.(io := Add(k.io, SessionTicket(data), false)) }

  function DoSendNewSessionTicket13(g: Config, c: Server, o: Oracle): (d: Server)
    requires c.state.SendNewSessionTicket13?
    ensures Descends(c, d)
  {
    if !g.tickets then Go(c, FinishServerHandshake, Ok)
    else if c.k.keys.schedule.None? || c.k.keys.schedule.value.generation != 3 then Crash(c)
    else if !o.optional then Go(c, FinishServerHandshake, PackFlight)
    else GoWith(c, PutTicket(PutTicket(c.k, o.data), o.secret), FinishServerHandshake, PackFlight)
  }

  function DoCompleteUpdateTraffic(c: Server): (d: Server)
    requires c.state.CompleteUpdateTraffic?
    ensures Descends(c, d)
  {
    if c.k.keys.schedule.None? || ApplicationData !in c.k.keys.enc then Crash(c)
    else GoWith(c, UpdateWrite(c.k), Done, Ok)
  }

  // Handlers that look at a message

  /** A message that must come now. */
  function Expect(c: Server, ok: bool, next: ServerState, st: Status): Server
    requires c.k.io.cache.Some?
  {
    if !ok then Fail(c) else GoWith(c, Next(c), next, st)
  }

  /** A hello whose inner one decrypts is replaced by that; those offer nothing below TLS 1.3. */
  function OnClientHello(g: Config, c: Server, m: Message, o: Oracle): (d: Server)
    requires c.state.ReadClientHello? && c.k.io.cache == Some(m)
    ensures Descends(c, d)
  {
    var inner := g.ech && m.ClientHello? && m.inner.Some? && o.decrypted;
    if !m.ClientHello? || !o.ok || (o.tls13 && !g.tls13) || (inner && !o.tls13) then Fail(c)
    else Go(c.(f := c.f.(version13 := o.tls13, innerOn := inner), t := c.t.(random := Seen(m, inner).random)),
            if o.tls13 then SelectParameters13 else SelectParameters, Ok)
  }

  function Traffic(o: Oracle): Option<(Term, Term)> { Some((Atom(2 * o.secret), Atom(2 * o.secret + 1))) }

  function OnSelectParameters(g: Config, c: Server, m: Message, o: Oracle): (d: Server)
    requires c.state.SelectParameters? && c.k.io.cache == Some(m)
    ensures Descends(c, d)
  {
    if c.f.innerOn then Crash(c)
    else if !o.ok then Fail(c)
    else
      var reused := o.optional;
      GoWith(c.(f := c.f.(reused := reused),
                x := o.x.(ticketExpected := !reused && o.x.ticketExpected, hasCert := false,
                          certRequested := !reused && !g.auth.NotAsked? && !o.x.anon,
                          traffic := if reused then Traffic(o) else None)),
             Next(c), SendServerHello, Ok)
  }

  function OnClientCertificate(g: Config, c: Server, m: Message, o: Oracle): (d: Server)
    requires c.state.ReadClientCertificate? && c.k.io.cache == Some(m)
    ensures Descends(c, d)
  {
    if !m.Certificate? || !o.ok || (g.auth.Required? && !o.present) then Fail(c)
    else GoWith(c.(x := c.x.(hasCert := o.present)), Next(c), VerifyClientCertificate, Ok)
  }

  function OnClientKeyExchange(c: Server, m: Message, o: Oracle): (d: Server)
    requires c.state.ReadClientKeyExchange? && c.k.io.cache == Some(m)
    ensures Descends(c, d)
  {
    if !m.ClientKeyExchange? || !o.ok then Fail(c)
    else GoWith(c.(x := c.x.(traffic := Traffic(o))), Next(c), ReadClientCertificateVerify, Ok)
  }

  /** The schedule after its first extraction, from the accepted pre-shared key or from none. */
  function FirstSchedule(hash: nat, psk: Option<Term>): (s: Schedule)
    ensures s.generation == 1 && s.hash == hash
  {
    ExtractKey(NewSchedule(hash), psk)
  }

  function EarlyAnswer(g: Config, o: Oracle, resumed: bool, retry: bool): Tri
  {
    if !o.earlyOffered then Undecided
    else if g.earlyData && resumed && !retry && o.earlyOk then Accepted else Rejected
  }

  function SelectKeys(keys: Keys, s: Schedule, early: Tri, t: Transcript): Keys
  {
    Keys(Some(s), keys.enc,
         if early == Accepted then keys.dec[ZeroRtt := DeriveSecret(s, ClientEarly, t)] else keys.dec)
  }

  /** The secret of the offered ticket, if it opens and its binder verifies. */
  function Resumed(g: Config, m: Message, o: Oracle): Option<Term>
  {
    if o.resume && m.ClientHello? && m.ticket.Some? then g.open(m.ticket.value) else None
  }

  /** A full handshake needs a key exchange, a resumed one may want it: the offered share of the group
      that the server prefers, or else that group, to be asked for. */
  function Take(m: Message, o: Oracle, resumed: bool): (Option<(nat, nat)>, Option<nat>)
  {
    if (resumed && !o.exchange) || !m.ClientHello? then (None, None)
    else if o.group in m.shares then (Some((o.group, m.shares[o.group])), None)
    else (None, Some(o.group))
  }

  /** A hello for the group asked for has that one share and no other. */
  predicate RightShares(regroup: Option<nat>, m: Message)
  {
    regroup.Some? ==> m.ClientHello? && m.shares.Keys == {regroup.value}
  }

  /** The transcript is rewritten here, the request goes out in the next handler. */
  function OnSelectParameters13(g: Config, c: Server, m: Message, o: Oracle): (d: Server)
    requires c.state.SelectParameters13? && c.k.io.cache == Some(m)
    ensures Descends(c, d)
  {
    if Unprocessed(c.k.io) || !o.ok then Fail(c) else
    var psk := Resumed(g, Seen(m, c.f.innerOn), o);
    var (peer, regroup) := Take(Seen(m, c.f.innerOn), o, psk.Some?);
    var retry := o.cookie || regroup.Some?;
    var s := FirstSchedule(o.hash, psk);
    var early := EarlyAnswer(g, o, psk.Some?, retry);
    var k := Next(c);
    var k1 := k.(keys := SelectKeys(k.keys, s, early, k.io.transcript));
    GoWith(c.(f := c.f.(reused := psk.Some?, early := early), x := c.x.(alps := o.x.alps),
              psk := if psk.Some? then Some(s) else None, t := c.t.(peer := peer, regroup := regroup)),
           if retry then k1.(io := Rewrite(k1.io, o.hash)) else k1,
           if retry then SendHelloRetryRequest13 else SendServerHello13, Ok)
  }

  function OnSecondClientHello13(c: Server, m: Message, o: Oracle): (d: Server)
    requires c.state.ReadSecondClientHello13? && c.k.io.cache == Some(m)
    ensures Descends(c, d)
  {
    if !m.ClientHello? || Unprocessed(c.k.io) || !o.ok || (c.f.innerOn && m.inner.None?) || !RightShares(c.t.regroup, m)
    then Fail(c)
    else
      var peer := if c.t.regroup.Some? then Some((c.t.regroup.value, m.shares[c.t.regroup.value])) else c.t.peer;
      GoWith(c.(t := c.t.(peer := peer)), Next(c), SendServerHello13, Ok)
  }

  /** _close_early_data asserts that early data is open. */
  function OnEndOfEarlyData13(c: Server, m: Message): (d: Server)
    requires c.state.ProcessEndOfEarlyData13? && c.k.io.cache == Some(m)
    ensures Descends(c, d)
  {
    if !m.EndOfEarlyData? || Unprocessed(c.k.io) then Fail(c)
    else if !c.f.inEarly then Crash(c)
    else GoWith(c.(f := c.f.(inEarly := false)), SetupRead(Next(c), Handshake), ReadClientEncryptedExtensions13, Ok)
  }

  function OnClientCertificate13(g: Config, c: Server, m: Message, o: Oracle): (d: Server)
    requires c.state.ReadClientCertificate13? && c.k.io.cache == Some(m)
    ensures Descends(c, d)
  {
    if !m.Certificate? || !o.ok || (g.auth.Required? && !o.present) || (o.present && !o.chainOk) then Fail(c)
    else
      var c1 := c.(x := c.x.(hasCert := o.present));
      GoWith(if o.present then Checked(c1, o.chainOk, ChainVerified(0)) else c1,
             Next(c), ReadClientCertificateVerify13, Ok)
  }

  function OnClientCertificateVerify13(c: Server, m: Message, o: Oracle): (d: Server)
    requires c.state.ReadClientCertificateVerify13? && c.k.io.cache == Some(m)
    ensures Descends(c, d)
  {
    if !m.CertificateVerify? || !o.ok || !o.signatureOk then Fail(c)
    else GoWith(Checked(c, o.signatureOk, SignatureVerified), Next(c), ReadClientFinished13, Ok)
  }

  function OnClientFinished13(c: Server, m: Message): (d: Server)
    requires c.state.ReadClientFinished13? && c.k.io.cache == Some(m)
    ensures Descends(c, d)
  {
    var s := c.k.keys.schedule;
    if s.None? || Handshake !in c.k.keys.dec then Crash(c)
    else if !m.FinishedMsg? || Unprocessed(c.k.io)
            || m.verify != VerifyData(s.value.hash, c.k.keys.dec[Handshake], c.k.io.transcript) then Fail(c)
    else GoWith(c.(h := History(c.h.checks + [FinishedVerified], c.h.at, c.k.io.transcript, c.h.mark, 0)),
                SetupRead(Next(c), ApplicationData), SendNewSessionTicket13, Ok)
  }

  function OnPostHandshake(c: Server, m: Message): Server
    requires c.state.ReadPostHandshake? && c.k.io.cache == Some(m)
  {
    if !c.f.version13 || !m.KeyUpdate? || Unprocessed(c.k.io) then Fail(c)
    else if c.k.keys.schedule.None? || ApplicationData !in c.k.keys.dec then Crash(c)
    else if m.requested
    then GoWith(c, WriteKeyUpdate(UpdateRead(NextUnhashed(c)), false), CompleteUpdateTraffic, PackFlight)
    else GoWith(c, UpdateRead(NextUnhashed(c)), ReadPostHandshake, Ok)
  }

  // Dispatch

  /** Does the handler of this state look for a message? Some only in some configurations. */
  predicate Awaits(c: Server)
  {
    match c.state
    case ReadClientCertificate => c.x.certRequested
    case ReadClientCertificateVerify => c.x.hasCert
    case ReadNextProto => c.x.npn
    case ProcessEndOfEarlyData13 => c.f.early == Accepted
    case ReadClientEncryptedExtensions13 => c.x.alps && c.f.early != Accepted
    case ReadClientCertificate13 => c.x.certRequested
    case ReadClientCertificateVerify13 => c.x.hasCert
    case _ =>
      || c.state.ReadClientHello? || c.state.SelectParameters? || c.state.SelectParameters13?
      || c.state.ReadClientKeyExchange?
      || c.state.ReadClientFinished? || c.state.ReadSecondClientHello13? || c.state.ReadClientFinished13?
      || c.state.ReadPostHandshake?
  }

  predicate Awaits12(s: ServerState)
  {
    || s.SelectParameters? || s.ReadClientCertificate? || s.ReadClientKeyExchange? || s.ReadClientCertificateVerify?
    || s.ReadNextProto? || s.ReadClientFinished?
  }

  function OnMessage12(g: Config, c: Server, m: Message, o: Oracle): Server
    requires Awaits(c) && Awaits12(c.state) && c.k.io.cache == Some(m)
  {
    match c.state
    case SelectParameters => OnSelectParameters(g, c, m, o)
    case ReadClientCertificate => OnClientCertificate(g, c, m, o)
    case ReadClientKeyExchange => OnClientKeyExchange(c, m, o)
    case ReadClientCertificateVerify =>
      Expect(c, m.CertificateVerify? && o.ok && o.signatureOk, AwaitChangeCipherSpec, Ok)
    case ReadNextProto => Expect(c, m.NextProtocol? && o.ok, ReadClientFinished, Ok)
    case ReadClientFinished =>
      Expect(c, m.FinishedMsg? && o.ok, if c.f.reused then FinishServerHandshake else SendSessionTicket, Ok)
  }

  function OnMessage13(g: Config, c: Server, m: Message, o: Oracle): Server
    requires Awaits(c) && !Awaits12(c.state) && c.k.io.cache == Some(m)
  {
    match c.state
    case ReadClientHello => OnClientHello(g, c, m, o)
    case SelectParameters13 => OnSelectParameters13(g, c, m, o)
    case ReadSecondClientHello13 => OnSecondClientHello13(c, m, o)
    case ProcessEndOfEarlyData13 => OnEndOfEarlyData13(c, m)
    case ReadClientEncryptedExtensions13 => Expect(c, m.EncryptedExtensions? && o.ok, ReadClientCertificate13, Ok)
    case ReadClientCertificate13 => OnClientCertificate13(g, c, m, o)
    case ReadClientCertificateVerify13 => OnClientCertificateVerify13(c, m, o)
    case ReadClientFinished13 => OnClientFinished13(c, m)
    case ReadPostHandshake => OnPostHandshake(c, m)
  }

  function OnQuiet(g: Config, c: Server, o: Oracle): Server
    requires HasHandler(c.state) && !Awaits(c)
  {
    match c.state
    case StartAccept => Go(c, ReadClientHello, Ok)
    case SendServerHello => DoSendServerHello(c, o)
    case SendServerCertificate => DoSendServerCertificate(c, o)
    case SendServerKeyExchange => DoSendServerKeyExchange(c, o)
    case SendServerHelloDone => DoSendServerHelloDone(c, o)
    case ReadClientCertificate => Go(c, VerifyClientCertificate, Ok)
    case VerifyClientCertificate => DoVerifyClientCertificate(c, o)
    case ReadClientCertificateVerify => Go(c, AwaitChangeCipherSpec, Ok)
    case AwaitChangeCipherSpec => Go(c, ProcessChangeCipherSpec, ReadChangeCipherSpec)
    case ProcessChangeCipherSpec => DoProcessChangeCipherSpec(c)
    case ReadNextProto => Go(c, ReadClientFinished, Ok)
    case SendSessionTicket => DoSendSessionTicket(c, o)
    case SendChangeCipherSpec => Go(c, SendServerFinished, WriteChangeCipherSpec)
    case SendServerFinished => DoSendServerFinished(c, o)
    case SendHelloRetryRequest13 => DoSendHelloRetryRequest13(c, o)
    case HrrCompatCcs13 => Go(c, ReadSecondClientHello13, if g.middlebox then WriteChangeCipherSpec else Ok)
    case SendServerHello13 => DoSendServerHello13(c, o)
    case ServerHelloCompatCcs13 =>
      Go(c, SendEncryptedExtensions13, if g.middlebox && !c.f.retried then WriteChangeCipherSpec else Ok)
    case SendEncryptedExtensions13 => DoSendEncryptedExtensions13(g, c, o)
    case SendServerFinished13 => DoSendServerFinished13(c)
    case ReadSecondClientFlight13 => DoReadSecondClientFlight13(c)
    case ProcessEndOfEarlyData13 => GoWith(c, SetupRead(c.k, Handshake), ReadClientEncryptedExtensions13, Ok)
    case ReadClientEncryptedExtensions13 => Go(c, ReadClientCertificate13, Ok)
    case ReadClientCertificate13 => Go(c, ReadClientFinished13, Ok)
    case ReadClientCertificateVerify13 => Go(c, ReadClientFinished13, Ok)
    case SendNewSessionTicket13 => DoSendNewSessionTicket13(g, c, o)
    case FinishServerHandshake => Go(c, Done, Ok)
    case ProcessUpdateTraffic => Go(c, CompleteUpdateTraffic, PackFlight)
    case CompleteUpdateTraffic => DoCompleteUpdateTraffic(c)
  }

  function Peeked(c: Server): Server { c.(k := c.k.(io := Peek(c.k.io))) }

  /** One handler call. */
  function Step(g: Config, c: Server, o: Oracle): Server
    requires HasHandler(c.state)
  {
    if !Awaits(c) then OnQuiet(g, c, o)
    else
      var p := Peeked(c);
      if p.k.io.cache.None? then
        if c.state.ReadPostHandshake? then Go(p, Done, Ok) else Go(p, p.state, ReadHandshake)
      else if Awaits12(p.state) then OnMessage12(g, p, p.k.io.cache.value, o)
      else OnMessage13(g, p, p.k.io.cache.value, o)
  }

  // Runs

  /** One turn of the connection's loop: a handler, then what its status asks for. An alert
      ends the run after its own record. */
  function Turn(g: Config, c: Server, o: Oracle): Server
    requires HasHandler(c.state)
  {
    Settle(Step(g, c, o), o.records)
  }

  function Settle(d: Server, records: nat): Server
  {
    match d.end
    case Running => d.(k := Act(d.k, d.status, records))
    case Alerted => d.(k := SendAlert(d.k, records))
    case Crashed => d
  }

  datatype Action =
    | Handle(o: Oracle)                            // do_handshake
    | Deliver(ms: seq<Message>, partial: bool)     // a handshake record is opened and fed
    | DeliverCcs                                   // the awaited change_cipher_spec arrives
    | Send(records: nat)                           // application data or an alert is sent
    | RequestUpdate(requested: bool)               // update_key()

  /** The connection waits for a handshake record; during early data read() may get one too. */
  predicate Waiting(c: Server) { c.status == ReadHandshake || c.status == ReadEndOfEarlyData || c.state.Done? }

  /** The connection is not inside its handshake loop. */
  predicate Idle(c: Server)
  {
    Waiting(c) || c.status == ReadChangeCipherSpec || c.state.ProcessUpdateTraffic? || c.state.StartAccept?
  }

  predicate Enabled(c: Server, a: Action)
  {
    && c.end.Running?
    && match a
       case Handle(_) => HasHandler(c.state) && !Waiting(c) && c.status != ReadChangeCipherSpec
       case Deliver(ms, partial) => Waiting(c)
       case DeliverCcs => c.status == ReadChangeCipherSpec
       case Send(_) => Idle(c)
       case RequestUpdate(_) => c.state.Done? && c.f.version13
  }

  function Apply(g: Config, c: Server, a: Action): Server
    requires Enabled(c, a)
  {
    match a
    case Handle(o) => Turn(g, c, o)
    case Deliver(ms, partial) =>
      c.(k := c.k.(io := Feed(c.k.io, ms, partial)), status := Ok,
         state := if c.state.Done? then ReadPostHandshake else c.state)
    case DeliverCcs => c.(status := Ok)
    case Send(n) => c.(k := SendAlert(c.k, n))
    case RequestUpdate(r) => c.(k := WriteKeyUpdate(c.k, r), state := ProcessUpdateTraffic, status := Ok)
  }

  /** `c` is the state after some run of `n` actions. */
  ghost predicate Reachable(g: Config, c: Server, n: nat)
    decreases n
  {
    if n == 0 then c == NewServer()
    else exists b, a :: Reachable(g, b, n - 1) && Enabled(b, a) && c == Apply(g, b, a)
  }
}
