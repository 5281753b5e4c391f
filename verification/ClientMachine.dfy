/** src/simple_tls/tls/handshake_client.py: the client's dispatch table, one function per
    handler, over arbitrary peer input. */
module ClientMachine {
  import opened Wire
  import opened HandshakeCore

  datatype ClientState =
    | StartConnect | EnterEarlyData | EnterEarlyDataCompat | ReadServerHello | ReadServerCertificate
    | ReadCertificateStatus | VerifyServerCertificate | ReadServerKeyExchange | ReadCertificateRequest
    | ReadServerHelloDone | SendClientCertificate | SendClientKeyExchange | SendClientCertificateVerify
    | SendChangeCipherSpec | SendClientFinished | FinishFlight | ReadSessionTicket | ProcessChangeCipherSpec
    | ReadServerFinished
    | CompatCcs13 | ReadHrr13 | SendSecondClientHello13 | ReadServerHello13 | ReadEncryptedExtensions13
    | ReadCertificateRequest13 | ReadServerCertificate13 | ReadServerCertificateVerify13 | ReadServerFinished13
    | SendEndOfEarlyData13 | SendClientEncryptedExtensions13 | SendClientCertificate13 | SendClientFinished13
    | CompleteSecondFlight13
    | FinishClientHandshake | Done
    | ReadPostHandshake | ProcessUpdateTraffic | CompleteUpdateTraffic

  /** `ech`, `psk`, `earlyData` and `session12` say what _do_start_connect finds usable; `ticket` is
      the one that goes with `psk`. */
  datatype Config = Config(
    tls13: bool, middlebox: bool, verify: bool, hostname: nat, publicName: nat, ech: bool,
    psk: Option<Schedule>, ticket: nat, earlyData: bool, session12: bool, statusRequest: bool, pha: bool)

  /** A pre-shared key is a schedule after its first extraction; early data needs one. */
  predicate ConfigOk(g: Config)
  {
    && (g.psk.Some? ==> g.tls13 && g.psk.value.generation == 1)
    && (g.earlyData ==> g.psk.Some?)
    && (g.ech ==> g.tls13)
  }

  /** `innerOn`: the inner transcript has taken the place of the outer one. */
  datatype Flags = Flags(
    version13: bool, reused: bool, retried: bool, ech: Tri, innerOn: bool, early: Tri, inEarly: bool)

  datatype Legacy = Legacy(
    anon: bool, rsa: bool, ticketExpected: bool, certRequested: bool, traffic: Option<(Term, Term)>)

  /** What the client put into its hellos: private key shares by group, and the inner random. */
  datatype Offer = Offer(kex: map<nat, nat>, random: nat)

  datatype Client = Client(
    k: Core, state: ClientState, status: Status, end: End, f: Flags, l: Legacy, inner: Transcript,
    psk: Option<Schedule>, x: Offer, h: History)

  function NewClient(): Client
  {
    Client(NewCore(), StartConnect, Ok, Running, Flags(false, false, false, Undecided, false, Undecided, false),
           Legacy(false, false, false, false, None), [], None, Offer(map[], 0), History([], [], [], 0, 0))
  }

  /** Everything a step does not compute itself: peer content that is only tested, random
      values, results of foreign checks. A run may take any value at any step. */
  datatype Oracle = Oracle(
    ok: bool, random: nat, data: nat, innerRandom: nat, inner: nat, kex: map<nat, nat>, grease: Option<nat>,
    chainOk: bool, signatureOk: bool, resumed: bool, ticket: bool, optional: bool, anon: bool, rsa: bool,
    secret: nat, records: nat)

  function ViewOf(c: Client): View { View(c.f.version13, c.f.innerOn) }

  // Outcomes

  function Fail(c: Client): Client { c.(end := Alerted) }

  function Crash(c: Client): Client { c.(end := Crashed) }

  function Go(c: Client, s: ClientState, st: Status): Client { c.(state := s, status := st) }

  function GoWith(c: Client, k: Core, s: ClientState, st: Status): Client { c.(k := k, state := s, status := st) }

  /** _next_handshake() */
  function Next(c: Client): Core
    requires c.k.io.cache.Some?
  {
    c.k.(io := Consume(c.k.io, c.k.io.cache.value, true))
  }

  /** _next_handshake(update_hash=False) */
  function NextUnhashed(c: Client): Core
    requires c.k.io.cache.Some?
  {
    c.k.(io := Consume(c.k.io, c.k.io.cache.value, false))
  }

  /** _add_message */
  function Put(k: Core, m: Message): Core { k.(io := Add(k.io, m, true)) }

  // The dispatch loop's progress

  predicate HasHandler(s: ClientState) { !s.VerifyServerCertificate? && !s.Done? }

  /** A rank of the dispatch table. The TLS 1.2 part needs the flag: a resumed handshake runs
      through the same states in another order. */
  function Rank(s: ClientState, reused: bool): (r: nat)
  {
    match s
    case StartConnect => 40
    case EnterEarlyData => 39
    case EnterEarlyDataCompat => 38
    case ReadServerHello => 37
    case ReadServerCertificate => 36
    case ReadCertificateStatus => 35
    case VerifyServerCertificate => 35
    case ReadServerKeyExchange => 34
    case ReadCertificateRequest => 33
    case ReadServerHelloDone => 32
    case SendClientCertificate => 31
    case SendClientKeyExchange => 30
    case SendClientCertificateVerify => 29
    case SendChangeCipherSpec => if reused then 22 else 28
    case SendClientFinished => if reused then 21 else 27
    case FinishFlight => if reused then 20 else 26
    case ReadSessionTicket => 25
    case ProcessChangeCipherSpec => 24
    case ReadServerFinished => 23
    case CompatCcs13 => 36
    case ReadHrr13 => 35
    case SendSecondClientHello13 => 34
    case ReadServerHello13 => 33
    case ReadEncryptedExtensions13 => 32
    case ReadCertificateRequest13 => 31
    case ReadServerCertificate13 => 30
    case ReadServerCertificateVerify13 => 29
    case ReadServerFinished13 => 28
    case SendEndOfEarlyData13 => 27
    case SendClientEncryptedExtensions13 => 26
    case SendClientCertificate13 => 25
    case SendClientFinished13 => 24
    case CompleteSecondFlight13 => 23
    case FinishClientHandshake => 4
    case ReadPostHandshake => 3
    case ProcessUpdateTraffic => 2
    case CompleteUpdateTraffic => 1
    case Done => 0
  }

  /** `d` came from `c` by a handler that kept the loop's promise. */
  predicate Descends(c: Client, d: Client)
  {
    d.end.Running? ==>
      && (HasHandler(d.state) || d.state.Done?)
      && (|| (&& d.status == ReadHandshake && d.state == c.state && d.f == c.f && Unread(d.k.io) == Unread(c.k.io)
              && !c.state.StartConnect?)
          || Rank(d.state, d.f.reused) < Rank(c.state, c.f.reused)
          || (d.state == c.state == ReadPostHandshake && Unread(d.k.io) < Unread(c.k.io)))
  }

  // Handlers that do not read: connection start

  function TicketOf(g: Config): Option<nat> { if g.psk.Some? then Some(g.ticket) else None }

  /** With ECH the ticket is in the inner hello and the outer one has a made-up one, if any. */
  function FirstHello(g: Config, o: Oracle): Message
  {
    if g.ech then ClientHello(o.random, o.data, o.kex, o.grease, Some(Inner(o.innerRandom, o.inner, TicketOf(g))))
    else ClientHello(o.random, o.data, o.kex, TicketOf(g), None)
  }

  function SecondHello(g: Config, c: Client, o: Oracle): Message
  {
    if c.f.ech == Accepted
    then ClientHello(o.random, o.data, c.x.kex, o.grease, Some(Inner(c.x.random, o.inner, TicketOf(g))))
    else ClientHello(o.random, o.data, c.x.kex, TicketOf(g), None)
  }

  function DoStartConnect(g: Config, c: Client, o: Oracle): (d: Client)
    requires c.state.StartConnect?
    ensures Descends(c, d)
  {
    var hello := FirstHello(g, o);
    GoWith(c.(psk := g.psk, x := Offer(o.kex, o.innerRandom), inner := if g.ech then [Msg(Seen(hello, true))] else []),
           Put(c.k, hello), EnterEarlyData, FlushHandshake)
  }

  function EarlyKeys(g: Config, c: Client, s: Schedule): Keys
  {
    var t := if g.ech then c.inner else c.k.io.transcript;
    c.k.keys.(schedule := Some(s), enc := c.k.keys.enc[ZeroRtt := DeriveSecret(s, ClientEarly, t)])
  }

  function DoEnterEarlyData(g: Config, c: Client): (d: Client)
    requires c.state.EnterEarlyData?
    ensures Descends(c, d)
  {
    if !g.earlyData then Go(c, ReadServerHello, Ok)
    else if c.psk.None? then Crash(c)
    else
      var k := SetupWrite(c.k.(keys := EarlyKeys(g, c, c.psk.value)), ZeroRtt);
      var d := c.(f := c.f.(inEarly := true));
      if g.middlebox then GoWith(d, k, EnterEarlyDataCompat, WriteChangeCipherSpec)
      else GoWith(d, k, ReadServerHello, EarlyReturn)
  }

  // Handlers that do not read: TLS 1.2

  function DoSendClientCertificate(c: Client, o: Oracle): (d: Client)
    requires c.state.SendClientCertificate?
    ensures Descends(c, d)
  {
    if !c.l.certRequested then Go(c, SendClientKeyExchange, Ok)
    else GoWith(c, Put(c.k, Certificate(o.data)), SendClientKeyExchange, Ok)
  }

  function Traffic(o: Oracle): Option<(Term, Term)> { Some((Atom(2 * o.secret), Atom(2 * o.secret + 1))) }

  function DoSendClientKeyExchange(c: Client, o: Oracle): (d: Client)
    requires c.state.SendClientKeyExchange?
    ensures Descends(c, d)
  {
    if !o.ok then Fail(c) else
    GoWith(c.(l := c.l.(traffic := Traffic(o))), Put(c.k, ClientKeyExchange(o.data)), SendClientCertificateVerify, Ok)
  }

  function DoSendClientCertificateVerify(c: Client, o: Oracle): (d: Client)
    requires c.state.SendClientCertificateVerify?
    ensures Descends(c, d)
  {
    if c.l.certRequested && o.optional
    then GoWith(c, Put(c.k, CertificateVerify(o.data)), SendChangeCipherSpec, PackFlight)
    else Go(c, SendChangeCipherSpec, PackFlight)
  }

  function DoSendChangeCipherSpec(c: Client): (d: Client)
    requires c.state.SendChangeCipherSpec?
    ensures Descends(c, d)
  {
    if c.l.traffic.None? then Crash(c)
    else GoWith(c, InstallWrite(c.k, Some(c.l.traffic.value.0)), SendClientFinished, WriteChangeCipherSpec)
  }

  /** The write key is installed a second time, which resets the sequence number again. */
  function DoSendClientFinished(c: Client, o: Oracle): (d: Client)
    requires c.state.SendClientFinished?
    ensures Descends(c, d)
  {
    if c.l.traffic.None? then Crash(c) else
    var k := InstallWrite(c.k, Some(c.l.traffic.value.0));
    var k1 := if o.optional then Put(k, NextProtocol(o.data)) else k;
    GoWith(c, Put(k1, FinishedMsg(Atom(o.secret))), FinishFlight, FlushHandshake)
  }

  function DoFinishFlight(c: Client): (d: Client)
    requires c.state.FinishFlight?
    ensures Descends(c, d)
  {
    Go(c, if c.f.reused then FinishClientHandshake else ReadSessionTicket, Ok)
  }

  function DoProcessChangeCipherSpec(c: Client): (d: Client)
    requires c.state.ProcessChangeCipherSpec?
    ensures Descends(c, d)
  {
    if c.l.traffic.None? then Crash(c)
    else GoWith(c, InstallRead(c.k, Some(c.l.traffic.value.1)), ReadServerFinished, Ok)
  }

  // Handlers that do not read: TLS 1.3

  function DoCompatCcs13(g: Config, c: Client): (d: Client)
    requires c.state.CompatCcs13?
    ensures Descends(c, d)
  {
    Go(c, ReadHrr13, if g.middlebox && !g.earlyData then WriteChangeCipherSpec else Ok)
  }

  function DoSendSecondClientHello13(g: Config, c: Client, o: Oracle): (d: Client)
    requires c.state.SendSecondClientHello13?
    ensures Descends(c, d)
  {
    var hello := SecondHello(g, c, o);
    GoWith(c.(inner := if c.f.ech == Accepted then c.inner + [Msg(Seen(hello, true))] else c.inner),
           Put(c.k, hello), ReadServerHello13, FlushHandshake)
  }

  /** _close_early_data asserts that early data is still open. */
  function DoSendEndOfEarlyData13(c: Client): (d: Client)
    requires c.state.SendEndOfEarlyData13?
    ensures Descends(c, d)
  {
    if c.f.early != Accepted then Go(c, SendClientEncryptedExtensions13, PackFlight)
    else if !c.f.inEarly then Crash(c)
    else GoWith(c.(f := c.f.(inEarly := false)), Put(c.k, EndOfEarlyData), SendClientEncryptedExtensions13, PackFlight)
  }

  function DoSendClientEncryptedExtensions13(c: Client, o: Oracle): (d: Client)
    requires c.state.SendClientEncryptedExtensions13?
    ensures Descends(c, d)
  {
    if c.f.early == Accepted then GoWith(c, SetupWrite(c.k, Handshake), SendClientCertificate13, Ok)
    else if o.optional
    then GoWith(c, Put(c.k, EncryptedExtensions(o.data, false)), SendClientCertificate13, Ok)
    else Go(c, SendClientCertificate13, Ok)
  }

  /** _send_certificate_tls13 */
  function SendCertificate(k: Core, o: Oracle): Core
  {
    var k1 := Put(k, Certificate(o.data));
    if o.signatureOk then Put(k1, CertificateVerify(o.data)) else k1
  }

  function DoSendClientCertificate13(c: Client, o: Oracle): (d: Client)
    requires c.state.SendClientCertificate13?
    ensures Descends(c, d)
  {
    if !c.l.certRequested then Go(c, SendClientFinished13, Ok)
    else if !o.ok then Fail(c)
    else GoWith(c, SendCertificate(c.k, o), SendClientFinished13, Ok)
  }

  function DoSendClientFinished13(c: Client): (d: Client)
    requires c.state.SendClientFinished13?
    ensures Descends(c, d)
  {
    if c.k.keys.schedule.None? || Handshake !in c.k.keys.enc then Crash(c) else
    var v := VerifyData(c.k.keys.schedule.value.hash, c.k.keys.enc[Handshake], c.k.io.transcript);
    GoWith(c.(h := c.h.(closed := c.k.io.transcript, last := |c.k.io.wire|)), Put(c.k, FinishedMsg(v)),
           CompleteSecondFlight13, FlushHandshake)
  }

  function DoCompleteSecondFlight13(c: Client): (d: Client)
    requires c.state.CompleteSecondFlight13?
    ensures Descends(c, d)
  {
    GoWith(c, SetupWrite(SetupRead(c.k, ApplicationData), ApplicationData), FinishClientHandshake, Ok)
  }

  function DoFinishClientHandshake(c: Client): (d: Client)
    requires c.state.FinishClientHandshake?
    ensures Descends(c, d)
  {
    if c.f.ech == Rejected then Fail(c) else Go(c, Done, Ok)
  }

  /** The second half of _derive_upd_secret_tls13 users: the new write key. */
  function DoCompleteUpdateTraffic(c: Client): (d: Client)
    requires c.state.CompleteUpdateTraffic?
    ensures Descends(c, d)
  {
    if c.k.keys.schedule.None? || ApplicationData !in c.k.keys.enc then Crash(c)
    else GoWith(c, UpdateWrite(c.k), Done, Ok)
  }

  // Handlers that look at a message

  function OnServerHello(g: Config, c: Client, m: Message, o: Oracle): (d: Client)
    requires c.state.ReadServerHello?
    requires c.k.io.cache == Some(m)
    ensures Descends(c, d)
  {
    if !m.ServerHello? || !o.ok then Fail(c)
    else if m.tls13 then
      if g.tls13 then Go(c.(f := c.f.(version13 := true)), CompatCcs13, Ok) else Fail(c)
    else if g.earlyData then Fail(c)
    else
      var reused := o.resumed && g.session12 && !g.ech;
      GoWith(c.(f := c.f.(ech := if g.ech then Rejected else c.f.ech, reused := reused),
                l := Legacy(o.anon, o.rsa, o.ticket, false, if reused then Traffic(o) else None)),
             Next(c), ReadServerCertificate, Ok)
  }

  function OnServerCertificate(g: Config, c: Client, m: Message, o: Oracle): (d: Client)
    requires c.state.ReadServerCertificate?
    requires c.k.io.cache == Some(m)
    ensures Descends(c, d)
  {
    if !m.Certificate? || !o.ok || (g.verify && !o.chainOk) then Fail(c)
    else GoWith(Checked(c, g.verify, o.chainOk, ChainVerified(g.hostname)), Next(c), ReadCertificateStatus, Ok)
  }

  /** Only a check that passed is recorded. */
  function Checked(c: Client, on: bool, passed: bool, x: Check): Client
    requires on ==> passed
  {
    if on then c.(h := c.h.(checks := c.h.checks + [x])) else c
  }

  /** A message that may be missing: it is consumed only when its type is the expected one. */
  function Optionally(c: Client, present: bool, ok: bool, next: ClientState): Client
    requires c.k.io.cache.Some?
  {
    if !present then Go(c, next, Ok) else if !ok then Fail(c) else GoWith(c, Next(c), next, Ok)
  }

  /** A message that must come now. */
  function Expect(c: Client, ok: bool, next: ClientState, st: Status): Client
    requires c.k.io.cache.Some?
  {
    if !ok then Fail(c) else GoWith(c, Next(c), next, st)
  }

  function Asked(c: Client, m: Message): Client
  {
    c.(l := c.l.(certRequested := m.CertificateRequest?))
  }

  function OnHrr13(g: Config, c: Client, m: Message, o: Oracle): (d: Client)
    requires c.state.ReadHrr13?
    requires c.k.io.cache == Some(m)
  {
    if !m.ServerHello? || Unprocessed(c.k.io) || !o.ok then Fail(c)
    else if !m.hrr then Go(WithSchedule(c, m.hash), ReadServerHello13, Ok)
    else Retried(g, WithSchedule(c, m.hash), m, o.secret)
  }

  function WithSchedule(c: Client, hash: nat): Client
  {
    c.(k := c.k.(keys := c.k.keys.(schedule := Some(NewSchedule(hash)))))
  }

  /** A HelloRetryRequest: both transcripts are rewritten, ECH is decided by the confirmation, key
      shares are replaced if another group is asked for, and early data is over. */
  function Retried(g: Config, c: Client, m: Message, fresh_: nat): (d: Client)
    requires c.k.io.cache == Some(m) && m.ServerHello?
    ensures d.state == SendSecondClientHello13
  {
    var folded := Retry(c.inner, m.hash);
    var confirmed := Confirms(c.x.random, folded, m);
    var inner := if g.ech then folded + (if confirmed then [Msg(m)] else []) else c.inner;
    var ech := if !g.ech then c.f.ech else if confirmed then Accepted else Rejected;
    var kex := if m.share.Some? then map[m.share.value.0 := fresh_] else c.x.kex;
    var d := c.(f := c.f.(retried := true, ech := ech, inEarly := false), inner := inner, x := c.x.(kex := kex));
    var k := c.k.(io := Consume(Rewrite(c.k.io, m.hash), m, true));
    GoWith(d, if c.f.inEarly then SetupWrite(k, Initial) else k, SendSecondClientHello13, Ok)
  }

  /** The ECH part of _do_read_server_hello_tls13; `None` is the alert after a retry. */
  function ConfirmEch(g: Config, c: Client, m: Message): (r: Option<Client>)
    requires m.ServerHello?
    ensures r.Some? ==> r.value.k.io.cache == c.k.io.cache && r.value.state == c.state && r.value.end == c.end
  {
    if !g.ech || c.f.ech == Rejected then Some(c)
    else if Confirms(c.x.random, c.inner, m) then
      Some(c.(f := c.f.(ech := Accepted, innerOn := true), k := c.k.(io := c.k.io.(transcript := c.inner))))
    else if c.f.retried && c.f.ech == Accepted then None
    else Some(c.(f := c.f.(ech := Rejected)))
  }

  /** Key schedule after a ServerHello: the offered one, or one started without a PSK; `None`
      is an alert. */
  function ChooseSchedule(c: Client, m: Message): Option<Schedule>
    requires m.ServerHello?
  {
    if m.psk then
      if c.psk.None? || c.f.ech == Rejected || c.psk.value.hash != m.hash then None else Some(c.psk.value)
    else if c.k.keys.schedule.None? then None
    else Some(ExtractKey(c.k.keys.schedule.value, None))
  }

  /** Both handshake secrets, derived after the ServerHello entered the transcript. */
  function HandshakeKeys(keys: Keys, s: Schedule, t: Transcript): Keys
  {
    Keys(Some(s), keys.enc[Handshake := DeriveSecret(s, ClientHs, t)],
         keys.dec[Handshake := DeriveSecret(s, ServerHs, t)])
  }

  /** The key exchange: with the offered share of the group that the server took; only a resumed
      session may do without. `None` is an alert. */
  function KeyExchange(c: Client, m: Message): Option<Option<Term>>
    requires m.ServerHello?
  {
    match m.share
    case None => if m.psk then Some(None) else None
    case Some((group, y)) => if group in c.x.kex then Some(Some(Exchange(c.x.kex[group], y))) else None
  }

  function Agreed(g: Config, c: Client, m: Message): (d: Client)
    requires c.k.io.cache == Some(m) && m.ServerHello?
    ensures d.end.Running? ==> d.state == ReadEncryptedExtensions13
  {
    if c.k.keys.schedule.None? || c.k.keys.schedule.value.hash != m.hash || KeyExchange(c, m).None? then Fail(c) else
    match ChooseSchedule(c, m)
    case None => Fail(c)
    case Some(s) => Proceed(c, ExtractKey(s, KeyExchange(c, m).value), m.psk, g.earlyData)
  }

  function Proceed(c: Client, s: Schedule, reused: bool, early: bool): Client
    requires c.k.io.cache.Some?
  {
    var k := Next(c);
    GoWith(c.(f := c.f.(reused := reused)),
           EnterHandshake(k.(keys := HandshakeKeys(k.keys, s, k.io.transcript)), early), ReadEncryptedExtensions13, Ok)
  }

  /** With early data on offer the write key waits for the server's answer. */
  function EnterHandshake(k: Core, early: bool): Core
  {
    if early then SetupRead(k, Handshake) else SetupWrite(SetupRead(k, Handshake), Handshake)
  }

  function OnServerHello13(g: Config, c: Client, m: Message, o: Oracle): (d: Client)
    requires c.state.ReadServerHello13?
    requires c.k.io.cache == Some(m)
  {
    if !m.ServerHello? || Unprocessed(c.k.io) || m.hrr || !o.ok then Fail(c) else
    match ConfirmEch(g, c, m)
    case None => Fail(c)
    case Some(d) => Agreed(g, d, m)
  }

  /** An `early_data` answer is refused unless asked for; then the code asserts a resumed session. */
  function OnEncryptedExtensions13(g: Config, c: Client, m: Message, o: Oracle): (d: Client)
    requires c.state.ReadEncryptedExtensions13?
    requires c.k.io.cache == Some(m)
    ensures Descends(c, d)
  {
    if !m.EncryptedExtensions? || !o.ok || (m.early && (!g.earlyData || c.f.retried)) then Fail(c)
    else if m.early && !c.f.reused then Crash(c)
    else if m.early && c.f.ech == Rejected then Fail(c)
    else
      GoWith(c.(f := c.f.(early := if m.early then Accepted else if g.earlyData then Rejected else c.f.early)),
             if g.earlyData && !m.early then SetupWrite(Next(c), Handshake) else Next(c), ReadCertificateRequest13, Ok)
  }

  function HostFor(g: Config, f: Flags): nat { if f.ech == Rejected then g.publicName else g.hostname }

  function OnServerCertificate13(g: Config, c: Client, m: Message, o: Oracle): (d: Client)
    requires c.state.ReadServerCertificate13?
    requires c.k.io.cache == Some(m)
    ensures Descends(c, d)
  {
    if !m.Certificate? || !o.ok || (g.verify && !o.chainOk) then Fail(c)
    else GoWith(Checked(c, g.verify, o.chainOk, ChainVerified(HostFor(g, c.f))), Next(c),
                ReadServerCertificateVerify13, Ok)
  }

  function OnServerCertificateVerify13(c: Client, m: Message, o: Oracle): (d: Client)
    requires c.state.ReadServerCertificateVerify13?
    requires c.k.io.cache == Some(m)
    ensures Descends(c, d)
  {
    if !m.CertificateVerify? || !o.ok || !o.signatureOk then Fail(c)
    else GoWith(Checked(c, true, o.signatureOk, SignatureVerified), Next(c), ReadServerFinished13, Ok)
  }

  function ApplicationKeys(keys: Keys, s: Schedule, t: Transcript): Keys
  {
    Keys(Some(s), keys.enc[ApplicationData := DeriveSecret(s, ClientAp, t)],
         keys.dec[ApplicationData := DeriveSecret(s, ServerAp, t)])
  }

  function OnServerFinished13(c: Client, m: Message): (d: Client)
    requires c.state.ReadServerFinished13?
    requires c.k.io.cache == Some(m)
    ensures Descends(c, d)
  {
    var s := c.k.keys.schedule;
    if s.None? || s.value.generation != 2 || Handshake !in c.k.keys.dec then Crash(c)
    else if !m.FinishedMsg? || Unprocessed(c.k.io)
            || m.verify != VerifyData(s.value.hash, c.k.keys.dec[Handshake], c.k.io.transcript) then Fail(c)
    else
      var k1 := Next(c);
      GoWith(c.(h := History(c.h.checks + [FinishedVerified], c.k.io.transcript, [], |c.k.io.wire|, 0)),
             k1.(keys := ApplicationKeys(k1.keys, ExtractKey(s.value, None), k1.io.transcript)),
             SendEndOfEarlyData13, Ok)
  }

  /** Post-handshake authentication: certificate and Finished under the application secret. */
  function AnswerRequest(c: Client, o: Oracle): Core
    requires c.k.io.cache.Some? && c.k.keys.schedule.Some? && ApplicationData in c.k.keys.enc
  {
    var k := SendCertificate(Next(c), o);
    Put(k, FinishedMsg(VerifyData(k.keys.schedule.value.hash, k.keys.enc[ApplicationData], k.io.transcript)))
  }

  function OnPostHandshake(g: Config, c: Client, m: Message, o: Oracle): (d: Client)
    requires c.state.ReadPostHandshake?
    requires c.k.io.cache == Some(m)
  {
    if !c.f.version13 then Fail(c)
    else if c.k.keys.schedule.None? || c.k.keys.schedule.value.generation != 3 then Crash(c)
    else if ApplicationData !in c.k.keys.enc || ApplicationData !in c.k.keys.dec then Crash(c)
    else if m.SessionTicket? then
      if o.ok then GoWith(c, NextUnhashed(c), ReadPostHandshake, Ok) else Fail(c)
    else if m.CertificateRequest? then
      if !g.pha || !o.ok then Fail(c) else GoWith(c, AnswerRequest(c, o), ReadPostHandshake, PackFlight)
    else if !m.KeyUpdate? || Unprocessed(c.k.io) then Fail(c)
    else if m.requested
    then GoWith(c, WriteKeyUpdate(UpdateRead(NextUnhashed(c)), false), CompleteUpdateTraffic, PackFlight)
    else GoWith(c, UpdateRead(NextUnhashed(c)), ReadPostHandshake, Ok)
  }

  // Dispatch

  /** Does the handler of this state look for a message? Some only in some configurations. */
  predicate Awaits(g: Config, c: Client)
  {
    match c.state
    case ReadServerCertificate => !c.f.reused && !c.l.anon
    case ReadCertificateStatus => g.statusRequest
    case ReadServerKeyExchange => !c.l.rsa
    case ReadCertificateRequest => !c.l.anon
    case ReadSessionTicket => c.l.ticketExpected
    case ReadCertificateRequest13 => !c.f.reused
    case _ =>
      || c.state.ReadServerHello? || c.state.ReadServerHelloDone? || c.state.ReadServerFinished? || c.state.ReadHrr13?
      || c.state.ReadServerHello13? || c.state.ReadEncryptedExtensions13? || c.state.ReadServerCertificate13?
      || c.state.ReadServerCertificateVerify13? || c.state.ReadServerFinished13? || c.state.ReadPostHandshake?
  }

  /** The states of the reading handlers with TLS 1.3, and the first one. */
  predicate Awaits13(s: ClientState)
  {
    || s.ReadServerHello? || s.ReadHrr13? || s.ReadServerHello13? || s.ReadEncryptedExtensions13?
    || s.ReadCertificateRequest13? || s.ReadServerCertificate13? || s.ReadServerCertificateVerify13?
    || s.ReadServerFinished13? || s.ReadPostHandshake?
  }

  function OnMessage13(g: Config, c: Client, m: Message, o: Oracle): Client
    requires Awaits(g, c) && Awaits13(c.state) && c.k.io.cache == Some(m)
  {
    match c.state
    case ReadServerHello => OnServerHello(g, c, m, o)
    case ReadHrr13 => OnHrr13(g, c, m, o)
    case ReadServerHello13 => OnServerHello13(g, c, m, o)
    case ReadEncryptedExtensions13 => OnEncryptedExtensions13(g, c, m, o)
    case ReadCertificateRequest13 => Optionally(Asked(c, m), m.CertificateRequest?, o.ok, ReadServerCertificate13)
    case ReadServerCertificate13 => OnServerCertificate13(g, c, m, o)
    case ReadServerCertificateVerify13 => OnServerCertificateVerify13(c, m, o)
    case ReadServerFinished13 => OnServerFinished13(c, m)
    case ReadPostHandshake => OnPostHandshake(g, c, m, o)
  }

  function OnMessage12(g: Config, c: Client, m: Message, o: Oracle): Client
    requires Awaits(g, c) && !Awaits13(c.state) && c.k.io.cache == Some(m)
  {
    match c.state
    case ReadServerCertificate => OnServerCertificate(g, c, m, o)
    case ReadCertificateStatus => Optionally(c, m.CertificateStatus?, o.ok, ReadServerKeyExchange)
    case ReadServerKeyExchange => Expect(c, m.ServerKeyExchange? && o.ok, ReadCertificateRequest, Ok)
    case ReadCertificateRequest => Optionally(Asked(c, m), m.CertificateRequest?, o.ok, ReadServerHelloDone)
    case ReadServerHelloDone => Expect(c, m.ServerHelloDone? && o.ok, SendClientCertificate, Ok)
    case ReadSessionTicket => Expect(c, m.SessionTicket? && o.ok, ProcessChangeCipherSpec, ReadChangeCipherSpec)
    case ReadServerFinished =>
      Expect(c, m.FinishedMsg? && o.ok, if c.f.reused then SendChangeCipherSpec else FinishClientHandshake, Ok)
  }

  function OnQuiet(g: Config, c: Client, o: Oracle): Client
    requires HasHandler(c.state) && !Awaits(g, c)
  {
    match c.state
    case StartConnect => DoStartConnect(g, c, o)
    case EnterEarlyData => DoEnterEarlyData(g, c)
    case EnterEarlyDataCompat => Go(c, ReadServerHello, EarlyReturn)
    case ReadServerCertificate => Go(c, if c.f.reused then ReadSessionTicket else ReadServerKeyExchange, Ok)
    case ReadCertificateStatus => Go(c, ReadServerKeyExchange, Ok)
    case ReadServerKeyExchange => Go(c, ReadCertificateRequest, Ok)
    case ReadCertificateRequest => Go(c, ReadServerHelloDone, Ok)
    case SendClientCertificate => DoSendClientCertificate(c, o)
    case SendClientKeyExchange => DoSendClientKeyExchange(c, o)
    case SendClientCertificateVerify => DoSendClientCertificateVerify(c, o)
    case SendChangeCipherSpec => DoSendChangeCipherSpec(c)
    case SendClientFinished => DoSendClientFinished(c, o)
    case FinishFlight => DoFinishFlight(c)
    case ReadSessionTicket => Go(c, ProcessChangeCipherSpec, ReadChangeCipherSpec)
    case ProcessChangeCipherSpec => DoProcessChangeCipherSpec(c)
    case CompatCcs13 => DoCompatCcs13(g, c)
    case SendSecondClientHello13 => DoSendSecondClientHello13(g, c, o)
    case ReadCertificateRequest13 => Go(c, ReadServerFinished13, Ok)
    case SendEndOfEarlyData13 => DoSendEndOfEarlyData13(c)
    case SendClientEncryptedExtensions13 => DoSendClientEncryptedExtensions13(c, o)
    case SendClientCertificate13 => DoSendClientCertificate13(c, o)
    case SendClientFinished13 => DoSendClientFinished13(c)
    case CompleteSecondFlight13 => DoCompleteSecondFlight13(c)
    case FinishClientHandshake => DoFinishClientHandshake(c)
    case ProcessUpdateTraffic => Go(c, CompleteUpdateTraffic, PackFlight)
    case CompleteUpdateTraffic => DoCompleteUpdateTraffic(c)
  }

  function Peeked(c: Client): Client { c.(k := c.k.(io := Peek(c.k.io))) }

  /** One handler call. */
  function Step(g: Config, c: Client, o: Oracle): Client
    requires HasHandler(c.state)
  {
    if !Awaits(g, c) then OnQuiet(g, c, o)
    else
      var p := Peeked(c);
      if p.k.io.cache.None? then
        if c.state.ReadPostHandshake? then Go(p, Done, Ok) else Go(p, p.state, ReadHandshake)
      else if Awaits13(p.state) then OnMessage13(g, p, p.k.io.cache.value, o)
      else OnMessage12(g, p, p.k.io.cache.value, o)
  }

  // Runs

  /** One turn of the connection's loop: a handler, then what its status asks for. An alert
      ends the run after its own record. */
  function Turn(g: Config, c: Client, o: Oracle): Client
    requires HasHandler(c.state)
  {
    Settle(Step(g, c, o), o.records)
  }

  function Settle(d: Client, records: nat): Client
  {
    match d.end
    case Running => d.(k := Act(d.k, d.status, records))
    case Alerted => d.(k := SendAlert(d.k, records))
    case Crashed => d
  }

  datatype Action =
    | Handle(o: Oracle)                            // do_handshake
    | Deliver(ms: seq<Message>, partial: bool)     // a handshake record is opened and fed
    | DeliverCcs                                   // the awaited change_cipher_spec arrives
    | Send(records: nat)                           // application data or an alert is sent
    | RequestUpdate(requested: bool)               // update_key()

  /** The connection is not inside its handshake loop. */
  predicate Idle(c: Client)
  {
    || c.status == ReadHandshake || c.status == ReadChangeCipherSpec || c.status == EarlyReturn
    || c.state.Done? || c.state.ProcessUpdateTraffic? || c.state.StartConnect?
  }

  predicate Enabled(c: Client, a: Action)
  {
    && c.end.Running?
    && match a
       case Handle(_) => HasHandler(c.state) && c.status != ReadHandshake && c.status != ReadChangeCipherSpec
       case Deliver(ms, partial) => c.status == ReadHandshake || c.state.Done?
       case DeliverCcs => c.status == ReadChangeCipherSpec
       case Send(_) => Idle(c)
       case RequestUpdate(_) => c.state.Done? && c.f.version13
  }

  function Apply(g: Config, c: Client, a: Action): Client
    requires Enabled(c, a)
  {
    match a
    case Handle(o) => Turn(g, c, o)
    case Deliver(ms, partial) =>
      c.(k := c.k.(io := Feed(c.k.io, ms, partial)), status := Ok,
         state := if c.state.Done? then ReadPostHandshake else c.state)
    case DeliverCcs => c.(status := Ok)
    case Send(n) => c.(k := SendAlert(c.k, n))
    case RequestUpdate(r) => c.(k := WriteKeyUpdate(c.k, r), state := ProcessUpdateTraffic, status := Ok)
  }

  /** `c` is the state after some run of `n` actions. */
  ghost predicate Reachable(g: Config, c: Client, n: nat)
    decreases n
  {
    if n == 0 then c == NewClient()
    else exists b, a :: Reachable(g, b, n - 1) && Enabled(b, a) && c == Apply(g, b, a)
  }
}
