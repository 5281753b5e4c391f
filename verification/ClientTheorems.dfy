/** What the client guarantees against arbitrary peers, over all runs. */
module ClientTheorems {
  import opened Wire
  import opened HandshakeCore
  import opened ClientMachine
  import opened ClientInv
  import opened ClientProofs
  import opened ClientRuns

  /** A TLS 1.3 client that requires verification is done only after it resumed a session that
      it offered, or after chain, CertificateVerify and Finished were checked in this order
      for its own hostname; never with ECH rejected, and after at most one HelloRetryRequest. */
  lemma AuthenticatedWhenDone(g: Config, c: Client, n: nat)
    requires ConfigOk(g) && Reachable(g, c, n) && c.end.Running? && c.state.Done? && c.f.version13
    ensures c.f.ech != Rejected
    ensures c.f.reused ==> g.psk.Some? && c.h.checks == [FinishedVerified]
    ensures !c.f.reused ==>
              c.h.checks ==
                (if g.verify then [ChainVerified(g.hostname)] else []) + [SignatureVerified, FinishedVerified]
    ensures Retries(c.k.io.wire) <= 1
  {
    hide Live, Log, NoncesOk, FinalRecords, Accepts, Finishes, Reachable, StartedFrom, AppSecret, HandshakeShape;
    ReachableInv(g, c, n);
    LiveAt(g, c);
    assert Retries(c.k.io.wire) <= 1 by { OneRetry(c); }
  }

  lemma OneRetry(c: Client)
    requires Sane(c)
    ensures Retries(c.k.io.wire) <= 1
  {}

  /** Every message handed in is in the log of consumed messages, is being looked at or waits;
      every hashed message is in the transcript once and in wire order. */
  lemma MessagesCountedOnce(g: Config, c: Client, n: nat)
    requires ConfigOk(g) && Reachable(g, c, n)
    ensures c.k.io.fed == Of(c.k.io.wire, Received)
                          + (if c.k.io.cache.Some? then [c.k.io.cache.value] else []) + c.k.io.incoming
    ensures c.k.io.transcript == TranscriptOf(c.k.io.wire, ViewOf(c))
  {
    hide Live, NoncesOk, Reachable;
    ReachableInv(g, c, n);
  }

  /** No write key is installed over pending messages; in TLS 1.3 no read key is installed
      inside or before an unread message; and no assertion fails but the one a peer controls. */
  lemma KeysChangeAtBoundaries(g: Config, c: Client, n: nat)
    requires ConfigOk(g) && Reachable(g, c, n)
    ensures !c.k.rec.fault && (c.f.version13 ==> !c.k.rec.straddled)
    ensures c.end.Crashed? ==> CrashCase(g, c)
  {
    hide Live, Log, NoncesOk, Reachable;
    ReachableInv(g, c, n);
  }

  /** No two records are sealed with the same key and sequence number. */
  lemma NoncesNeverRepeat(g: Config, c: Client, n: nat, i: nat, j: nat)
    requires ConfigOk(g) && Reachable(g, c, n) && i < j < |c.k.rec.used|
    ensures c.k.rec.used[i] != c.k.rec.used[j]
  {
    hide Live, Log, Reachable;
    ReachableInv(g, c, n);
  }

  /** A handler that fails an assertion leaves state and flags as they were. */
  lemma QuietStays(g: Config, c: Client, o: Oracle)
    requires HasHandler(c.state) && !Awaits(g, c) && c.end.Running?
    ensures var d := OnQuiet(g, c, o); d.end.Crashed? ==> d.state == c.state
  {
    hide Descends, Traffic, Lookup, TicketOf, Seen, SetupWrite, InstallWrite, InstallRead, UpdateWrite, Put,
         SendCertificate, FirstHello, SecondHello, VerifyData, EarlyKeys;
  }

  lemma MessageStays(g: Config, c: Client, m: Message, o: Oracle)
    requires Awaits(g, c) && Awaits13(c.state) && c.k.io.cache == Some(m) && c.end.Running?
    ensures var d := OnMessage13(g, c, m, o); d.end.Crashed? ==> d.state == c.state
  {
    hide Descends, Next, NextUnhashed, SetupWrite, UpdateRead, WriteKeyUpdate, AnswerRequest, VerifyData,
         ApplicationKeys, OnServerHello13, OnHrr13;
    if c.state.ReadServerHello13? || c.state.ReadHrr13? { HelloStays(g, c, m, o); }
  }

  lemma HelloStays(g: Config, c: Client, m: Message, o: Oracle)
    requires c.k.io.cache == Some(m) && c.end.Running?
    ensures c.state.ReadServerHello13? ==> !OnServerHello13(g, c, m, o).end.Crashed?
    ensures c.state.ReadHrr13? ==> !OnHrr13(g, c, m, o).end.Crashed?
  {
    hide Next, SetupWrite, Rewrite, Consume, Confirms, ChooseSchedule, EnterHandshake, HandshakeKeys;
  }

  lemma LegacyStays(g: Config, c: Client, m: Message, o: Oracle)
    requires Awaits(g, c) && !Awaits13(c.state) && c.k.io.cache == Some(m) && c.end.Running?
    ensures !OnMessage12(g, c, m, o).end.Crashed?
  {
    hide Descends, Next;
  }

  lemma CrashStays(g: Config, c: Client, o: Oracle)
    requires HasHandler(c.state) && c.end.Running?
    ensures var d := Step(g, c, o); d.end.Crashed? ==> d.state == c.state
  {
    hide OnQuiet, OnMessage12, OnMessage13;
    var p := Peeked(c);
    if !Awaits(g, c) { QuietStays(g, c, o); }
    else if p.k.io.cache.Some? && Awaits13(p.state) { MessageStays(g, p, p.k.io.cache.value, o); }
    else if p.k.io.cache.Some? { LegacyStays(g, p, p.k.io.cache.value, o); }
  }

  /** The next message accepts early data that was on offer, in the first flight, without resuming. */
  predicate Undue(g: Config, c: Client)
  {
    && c.state.ReadEncryptedExtensions13? && g.earlyData && !c.f.retried && !c.f.reused
    && var m := Peek(c.k.io).cache; m.Some? && m.value.EncryptedExtensions? && m.value.early
  }

  lemma ExtensionsCrash(g: Config, c: Client, o: Oracle)
    requires c.state.ReadEncryptedExtensions13? && c.end.Running?
    ensures Step(g, c, o).end.Crashed? <==> Undue(g, c) && o.ok
  {
    hide Descends, SetupWrite, Next;
  }

  /** Over all runs, at every state and for every action: an assertion fails exactly if the client reads
      extensions that pass its checks and accept early data, on offer and in the first flight, for a session
      that was not resumed. */
  lemma CrashExactly(g: Config, c: Client, n: nat, a: Action)
    requires ConfigOk(g) && Reachable(g, c, n) && Enabled(c, a)
    ensures Apply(g, c, a).end.Crashed? <==> a.Handle? && Undue(g, c) && a.o.ok
  {
    hide Reachable, Live, Log, NoncesOk, Step, SendAlert, Pack, HandlerInv, Undue;
    ReachableInv(g, c, n);
    InvMore(g, c);
    if a.Handle? {
      StepKeeps(g, c, a.o);
      CrashedCase(g, Step(g, c, a.o));
      CrashStays(g, c, a.o);
      if c.state.ReadEncryptedExtensions13? { ExtensionsCrash(g, c, a.o); }
      UndueState(g, c);
    }
  }

  lemma UndueState(g: Config, c: Client)
    ensures Undue(g, c) ==> c.state.ReadEncryptedExtensions13?
  {}

  lemma CrashedCase(g: Config, c: Client)
    requires HandlerInv(g, c)
    ensures c.end.Crashed? ==> c.state.ReadEncryptedExtensions13?
  {
    hide Live, Log, NoncesOk;
  }

  lemma InvMore(g: Config, c: Client)
    requires ConfigOk(g) && Inv(g, c) && c.end.Running?
    ensures At(g, c)
  {}

  // A run in which it fails

  function CrashConfig(): Config
  {
    Config(true, false, true, 0, 0, false, Some(Schedule(1, 1, Zeros)), 0, true, false, false, false)
  }

  function PlainOracle(): Oracle
  {
    Oracle(true, 0, 0, 0, 0, map[0 := 7], None, true, true, false, false, false, false, false, 0, 0)
  }

  /** What matters of a client on its way there. */
  predicate On(c: Client, s: ClientState, st: Status, cache: Option<Message>, waiting: seq<Message>)
  {
    && c.end.Running? && c.state == s && c.status == st && c.k.io.cache == cache && c.k.io.incoming == waiting
    && !c.k.io.partial
    && !c.f.retried && !c.f.reused && c.f.ech == Undecided && c.psk == CrashConfig().psk
    && (s.StartConnect? || 0 in c.x.kex)
  }

  const SH: Message := ServerHello(0, false, true, 1, false, Some((0, 9)), None)
  const EE: Message := EncryptedExtensions(0, true)

  function Stepped(c: Client): Client
    requires Enabled(c, Handle(PlainOracle()))
  {
    Apply(CrashConfig(), c, Handle(PlainOracle()))
  }

  /** Records that leave do not matter. */
  lemma OnSettled(d: Client, s: ClientState, st: Status, cache: Option<Message>)
    requires On(d, s, st, cache, [])
    ensures On(Settle(d, 0), s, st, cache, []) && Settle(d, 0).k.keys == d.k.keys
  {
    hide Pack, SendAlert, Sealed;
  }

  lemma CrashSendHello(c: Client)
    requires c == NewClient()
    ensures Enabled(c, Handle(PlainOracle())) && On(Stepped(c), EnterEarlyData, FlushHandshake, None, [])
  {
    hide Settle, OnMessage12, OnMessage13, OnQuiet;
    CrashStarts();
    OnSettled(OnQuiet(CrashConfig(), c, PlainOracle()), EnterEarlyData, FlushHandshake, None);
  }

  lemma CrashStarts()
    ensures On(OnQuiet(CrashConfig(), NewClient(), PlainOracle()), EnterEarlyData, FlushHandshake, None, [])
  {
    hide Descends;
  }

  lemma CrashEnterEarly(c: Client)
    requires On(c, EnterEarlyData, FlushHandshake, None, [])
    ensures Enabled(c, Handle(PlainOracle())) && On(Stepped(c), ReadServerHello, EarlyReturn, None, [])
  {
    hide Descends, Sealed, OnMessage12, OnMessage13;
  }

  lemma CrashAwaitHello(c: Client)
    requires On(c, ReadServerHello, EarlyReturn, None, [])
    ensures Enabled(c, Handle(PlainOracle())) && On(Stepped(c), ReadServerHello, ReadHandshake, None, [])
  {
    hide Descends, Sealed, OnQuiet, OnMessage12;
  }

  lemma CrashGetHello(c: Client)
    requires On(c, ReadServerHello, ReadHandshake, None, [])
    ensures Enabled(c, Deliver([SH], false)) && On(Apply(CrashConfig(), c, Deliver([SH], false)), ReadServerHello, Ok,
            None, [SH])
  {
    hide Descends, NoncesOk, RankedBy, Sealed;
  }

  lemma CrashSeeTls13(c: Client)
    requires On(c, ReadServerHello, Ok, None, [SH])
    ensures Enabled(c, Handle(PlainOracle())) && On(Stepped(c), CompatCcs13, Ok, Some(SH), [])
  {
    hide Settle, OnQuiet, OnMessage12, OnServerHello13, OnHrr13, OnServerHello, OnEncryptedExtensions13,
         OnServerFinished13, OnPostHandshake;
    CrashSees(Peeked(c));
    OnSettled(Step(CrashConfig(), c, PlainOracle()), CompatCcs13, Ok, Some(SH));
  }

  lemma CrashSees(c: Client)
    requires On(c, ReadServerHello, Ok, Some(SH), [])
    ensures On(OnServerHello(CrashConfig(), c, SH, PlainOracle()), CompatCcs13, Ok, Some(SH), [])
  {
    hide Descends;
  }

  lemma CrashCompat(c: Client)
    requires On(c, CompatCcs13, Ok, Some(SH), [])
    ensures Enabled(c, Handle(PlainOracle())) && On(Stepped(c), ReadHrr13, Ok, Some(SH), [])
  {
    hide Descends, Sealed, OnMessage12, OnMessage13;
  }

  lemma CrashNoRetry(c: Client)
    requires On(c, ReadHrr13, Ok, Some(SH), [])
    ensures Enabled(c, Handle(PlainOracle())) && On(Stepped(c), ReadServerHello13, Ok, Some(SH), [])
            && Stepped(c).k.keys.schedule == Some(NewSchedule(1))
  {
    hide Settle, OnQuiet, OnMessage12, OnServerHello13, OnHrr13, OnServerHello, OnEncryptedExtensions13,
         OnServerFinished13, OnPostHandshake;
    CrashFirstHello(c);
    OnSettled(Step(CrashConfig(), c, PlainOracle()), ReadServerHello13, Ok, Some(SH));
  }

  lemma CrashFirstHello(c: Client)
    requires On(c, ReadHrr13, Ok, Some(SH), [])
    ensures OnHrr13(CrashConfig(), c, SH, PlainOracle()) == Go(WithSchedule(c, 1), ReadServerHello13, Ok)
  {
    hide Retried;
  }

  lemma CrashAgree(c: Client)
    requires On(c, ReadServerHello13, Ok, Some(SH), []) && c.k.keys.schedule == Some(NewSchedule(1))
    ensures Enabled(c, Handle(PlainOracle())) && On(Stepped(c), ReadEncryptedExtensions13, Ok, None, [])
  {
    hide Settle, HandshakeKeys, ExtractKey, OnQuiet, OnMessage12, OnServerHello13, Exchange, OnHrr13, OnServerHello,
         OnEncryptedExtensions13, OnServerFinished13, OnPostHandshake;
    CrashProceeds(c);
    OnSettled(Step(CrashConfig(), c, PlainOracle()), ReadEncryptedExtensions13, Ok, None);
  }

  lemma CrashProceeds(c: Client)
    requires On(c, ReadServerHello13, Ok, Some(SH), []) && c.k.keys.schedule == Some(NewSchedule(1))
    ensures OnServerHello13(CrashConfig(), c, SH, PlainOracle()) ==
            Proceed(c, ExtractKey(ExtractKey(NewSchedule(1), None), Some(Exchange(c.x.kex[0], 9))), false, true)
  {
    hide Proceed, ExtractKey, Exchange;
  }

  lemma CrashAwaitExtensions(c: Client)
    requires On(c, ReadEncryptedExtensions13, Ok, None, [])
    ensures Enabled(c, Handle(PlainOracle())) && On(Stepped(c), ReadEncryptedExtensions13, ReadHandshake, None, [])
  {
    hide Descends, Sealed, OnQuiet, OnMessage12;
  }

  lemma CrashGetExtensions(c: Client)
    requires On(c, ReadEncryptedExtensions13, ReadHandshake, None, [])
    ensures Enabled(c, Deliver([EE], false)) && On(Apply(CrashConfig(), c, Deliver([EE], false)),
            ReadEncryptedExtensions13, Ok, None, [EE])
  {
    hide Descends, NoncesOk, RankedBy, Sealed;
  }

  lemma CrashFails(c: Client)
    requires On(c, ReadEncryptedExtensions13, Ok, None, [EE])
    ensures Enabled(c, Handle(PlainOracle())) && Stepped(c).end.Crashed?
  {
    hide Descends, Sealed, OnQuiet, OnMessage12;
  }

  lemma Extend(g: Config, c: Client, n: nat, a: Action)
    requires Reachable(g, c, n) && Enabled(c, a)
    ensures Reachable(g, Apply(g, c, a), n + 1)
  {
    hide Apply, Enabled;
  }

  /** A server that answers early data without resuming makes a client assertion fail. */
  lemma CrashIsReachable()
    ensures ConfigOk(CrashConfig()) && exists c, n: nat :: Reachable(CrashConfig(), c, n) && c.end.Crashed?
  {
    hide Apply, Enabled, Reachable, On, NewClient;
    var g, h := CrashConfig(), Handle(PlainOracle());
    var c0 := NewClient();
    StartReachable(g);
    CrashSendHello(c0); Extend(g, c0, 0, h);
    var c1 := Stepped(c0);
    CrashEnterEarly(c1); Extend(g, c1, 1, h);
    var c2 := Stepped(c1);
    CrashAwaitHello(c2); Extend(g, c2, 2, h);
    var c3 := Stepped(c2);
    CrashGetHello(c3); Extend(g, c3, 3, Deliver([SH], false));
    var c4 := Apply(g, c3, Deliver([SH], false));
    CrashSeeTls13(c4); Extend(g, c4, 4, h);
    var c5 := Stepped(c4);
    CrashCompat(c5); Extend(g, c5, 5, h);
    var c6 := Stepped(c5);
    CrashNoRetry(c6); Extend(g, c6, 6, h);
    var c7 := Stepped(c6);
    CrashAgree(c7); Extend(g, c7, 7, h);
    var c8 := Stepped(c7);
    CrashAwaitExtensions(c8); Extend(g, c8, 8, h);
    var c9 := Stepped(c8);
    CrashGetExtensions(c9); Extend(g, c9, 9, Deliver([EE], false));
    var c10 := Apply(g, c9, Deliver([EE], false));
    CrashFails(c10); Extend(g, c10, 10, h);
    assert Reachable(g, Stepped(c10), 11);
  }

  lemma StartReachable(g: Config)
    ensures Reachable(g, NewClient(), 0)
  {}

  ghost function Iterate(g: Config, c: Client, os: nat -> Oracle, n: nat): Client
  {
    if n == 0 then c else
    var b := Iterate(g, c, os, n - 1);
    if HasHandler(b.state) then Step(g, b, os(n - 1)) else b
  }

  // No rank of the states alone will do

  /** Some run gets to `s`, and its next handler goes on to `t`. */
  ghost predicate Goes(s: ClientState, t: ClientState)
  {
    exists g, c, n: nat, o ::
      && ConfigOk(g) && Reachable(g, c, n) && Enabled(c, Handle(o)) && c.state == s
      && Apply(g, c, Handle(o)).end.Running? && Apply(g, c, Handle(o)).state == t
  }

  function OldConfig(): Config { Config(false, false, false, 0, 0, false, None, 0, false, true, false, false) }

  /** An anonymous TLS 1.2 handshake, full or resumed. */
  function OldTurn(reused: bool): Action
  {
    Handle(Oracle(true, 0, 0, 0, 0, map[], None, true, true, reused, false, false, true, false, 0, 0))
  }

  const OldHello: Message := ServerHello(0, false, false, 0, false, None, None)

  ghost predicate OldReached(c: Client) { exists n: nat :: Reachable(OldConfig(), c, n) }

  /** What matters of a client in such a run. */
  predicate OldAt(c: Client, reused: bool, s: ClientState, st: Status, waiting: seq<Message>)
  {
    && c.end.Running? && c.state == s && c.status == st && !c.f.version13
    && c.k.io.cache.None? && c.k.io.incoming == waiting && !c.k.io.partial
    && (InLegacy(s) ==>
         && c.f.reused == reused && c.l.anon && !c.l.rsa && !c.l.ticketExpected && !c.l.certRequested
         && (reused || HasTraffic(s) ==> c.l.traffic.Some?))
  }

  /** Where the handlers of the run go on to. */
  function OldNext(s: ClientState, reused: bool): (ClientState, Status)
  {
    match s
    case EnterEarlyData => (ReadServerHello, Ok)
    case ReadServerCertificate => (if reused then ReadSessionTicket else ReadServerKeyExchange, Ok)
    case ReadServerKeyExchange => (ReadCertificateRequest, Ok)
    case ReadCertificateRequest => (ReadServerHelloDone, Ok)
    case ReadServerHelloDone => (SendClientCertificate, Ok)
    case SendClientCertificate => (SendClientKeyExchange, Ok)
    case SendClientKeyExchange => (SendClientCertificateVerify, Ok)
    case SendClientCertificateVerify => (SendChangeCipherSpec, PackFlight)
    case SendChangeCipherSpec => (SendClientFinished, WriteChangeCipherSpec)
    case SendClientFinished => (FinishFlight, FlushHandshake)
    case FinishFlight => (ReadSessionTicket, Ok)
    case ReadSessionTicket => (ProcessChangeCipherSpec, ReadChangeCipherSpec)
    case ProcessChangeCipherSpec => (ReadServerFinished, Ok)
    case _ => (SendChangeCipherSpec, Ok)
  }

  predicate OldReads(s: ClientState) { s.ReadServerKeyExchange? || s.ReadServerHelloDone? || s.ReadServerFinished? }

  predicate OldQuiet(s: ClientState, reused: bool)
  {
    || s.EnterEarlyData? || s.ReadServerCertificate? || s.ReadCertificateRequest? || s.SendClientCertificate?
    || s.SendClientKeyExchange? || s.SendClientCertificateVerify? || s.SendChangeCipherSpec? || s.SendClientFinished?
    || (s.FinishFlight? && !reused) || s.ReadSessionTicket? || s.ProcessChangeCipherSpec?
  }

  lemma OldDoes(c: Client, reused: bool)
    requires OldReached(c) && Enabled(c, OldTurn(reused))
    ensures var d := Apply(OldConfig(), c, OldTurn(reused));
            OldReached(d) && (d.end.Running? ==> Goes(c.state, d.state))
  {
    hide Apply, Enabled;
    var n: nat :| Reachable(OldConfig(), c, n);
    assert Reachable(OldConfig(), Apply(OldConfig(), c, OldTurn(reused)), n + 1);
  }

  lemma OldActs(c: Client, a: Action)
    requires OldReached(c) && Enabled(c, a)
    ensures OldReached(Apply(OldConfig(), c, a))
  {
    hide Apply, Enabled;
    var n: nat :| Reachable(OldConfig(), c, n);
    assert Reachable(OldConfig(), Apply(OldConfig(), c, a), n + 1);
  }

  /** A handler that does not read. */
  lemma OldGoes(c: Client, reused: bool, s: ClientState, st: Status, waiting: seq<Message>) returns (d: Client)
    requires OldReached(c) && OldAt(c, reused, s, st, waiting) && OldQuiet(s, reused)
    requires st != ReadHandshake && st != ReadChangeCipherSpec
    ensures var (t, u) := OldNext(s, reused); OldReached(d) && OldAt(d, reused, t, u, waiting) && Goes(s, t)
  {
    hide OldReached, Goes, OnQuiet, OnMessage12, OnMessage13, Settle;
    var o := OldTurn(reused).o;
    d := Apply(OldConfig(), c, OldTurn(reused));
    OldHandled(c, reused, s, st, waiting);
    OldSettled(OnQuiet(OldConfig(), c, o), reused, OldNext(s, reused).0, OldNext(s, reused).1, waiting);
    OldDoes(c, reused);
  }

  lemma OldHandled(c: Client, reused: bool, s: ClientState, st: Status, waiting: seq<Message>)
    requires OldAt(c, reused, s, st, waiting) && OldQuiet(s, reused)
    ensures !Awaits(OldConfig(), c)
    ensures var (t, u) := OldNext(s, reused); OldAt(OnQuiet(OldConfig(), c, OldTurn(reused).o), reused, t, u, waiting)
  {
    hide OnQuiet;
    var o := OldTurn(reused).o;
    if OldSends(s) { OldSent(c, o, reused, s, st, waiting); } else { OldSkipped(c, o, reused, s, st, waiting); }
  }

  predicate OldSends(s: ClientState)
  {
    || s.SendClientKeyExchange? || s.SendClientCertificateVerify? || s.SendChangeCipherSpec? || s.SendClientFinished?
    || s.ProcessChangeCipherSpec?
  }

  /** Those that send or install a key, and those that do neither. */
  lemma OldSent(c: Client, o: Oracle, reused: bool, s: ClientState, st: Status, waiting: seq<Message>)
    requires OldAt(c, reused, s, st, waiting) && OldSends(s) && o == OldTurn(reused).o
    ensures !Awaits(OldConfig(), c)
    ensures var (t, u) := OldNext(s, reused); OldAt(OnQuiet(OldConfig(), c, o), reused, t, u, waiting)
  {
    hide Descends, DoStartConnect, DoEnterEarlyData, DoSendClientCertificate, DoFinishFlight;
  }

  lemma OldSkipped(c: Client, o: Oracle, reused: bool, s: ClientState, st: Status, waiting: seq<Message>)
    requires OldAt(c, reused, s, st, waiting) && OldQuiet(s, reused) && !OldSends(s) && o == OldTurn(reused).o
    ensures !Awaits(OldConfig(), c)
    ensures var (t, u) := OldNext(s, reused); OldAt(OnQuiet(OldConfig(), c, o), reused, t, u, waiting)
  {
    hide OnQuiet;
    OldGoesOn(c, o, reused, s, st, waiting);
  }

  lemma OldGoesOn(c: Client, o: Oracle, reused: bool, s: ClientState, st: Status, waiting: seq<Message>)
    requires OldAt(c, reused, s, st, waiting) && OldQuiet(s, reused) && !OldSends(s) && o == OldTurn(reused).o
    ensures !Awaits(OldConfig(), c)
    ensures OnQuiet(OldConfig(), c, o) == Go(c, OldNext(s, reused).0, OldNext(s, reused).1)
  {
    hide Descends, DoSendClientKeyExchange, DoSendClientCertificateVerify, DoSendChangeCipherSpec,
         DoSendClientFinished, DoProcessChangeCipherSpec;
  }

  /** Records that leave do not matter. */
  lemma OldSettled(c: Client, reused: bool, s: ClientState, st: Status, waiting: seq<Message>)
    requires OldAt(c, reused, s, st, waiting)
    ensures OldAt(Settle(c, 0), reused, s, st, waiting)
  {
    hide Pack, SendAlert, Sealed;
  }

  /** One that reads the next message. */
  lemma OldTakes(c: Client, reused: bool, s: ClientState, m: Message, rest: seq<Message>) returns (d: Client)
    requires OldReached(c) && OldAt(c, reused, s, Ok, [m] + rest) && OldReads(s) && (s.ReadServerFinished? ==> reused)
    requires s.ReadServerKeyExchange? ==> m.ServerKeyExchange?
    requires s.ReadServerHelloDone? ==> m.ServerHelloDone?
    requires s.ReadServerFinished? ==> m.FinishedMsg?
    ensures var t := OldNext(s, reused).0; OldReached(d) && OldAt(d, reused, t, Ok, rest) && Goes(s, t)
  {
    hide OldReached, Goes, OnQuiet, OnMessage12, OnMessage13, Settle, Peeked;
    var o := OldTurn(reused).o;
    d := Apply(OldConfig(), c, OldTurn(reused));
    OldLooks(c, m, rest);
    OldRead(Peeked(c), reused, s, m, rest);
    OldSettled(OnMessage12(OldConfig(), Peeked(c), m, o), reused, OldNext(s, reused).0, Ok, rest);
    OldDoes(c, reused);
  }

  lemma OldLooks(c: Client, m: Message, rest: seq<Message>)
    requires c.k.io.cache.None? && c.k.io.incoming == [m] + rest
    ensures Peeked(c) == c.(k := c.k.(io := c.k.io.(cache := Some(m), incoming := rest)))
  {
    assert ([m] + rest)[1..] == rest;
  }

  lemma OldRead(p: Client, reused: bool, s: ClientState, m: Message, rest: seq<Message>)
    requires p.k.io.cache == Some(m) && OldAt(p.(k := p.k.(io := p.k.io.(cache := None))), reused, s, Ok, rest)
             && OldReads(s)
    requires s.ReadServerKeyExchange? ==> m.ServerKeyExchange?
    requires s.ReadServerHelloDone? ==> m.ServerHelloDone?
    requires s.ReadServerFinished? ==> m.FinishedMsg? && reused
    ensures Awaits(OldConfig(), p) && !Awaits13(p.state)
    ensures OldAt(OnMessage12(OldConfig(), p, m, OldTurn(reused).o), reused, OldNext(s, reused).0, Ok, rest)
  {
    hide Descends;
  }

  lemma OldStarts(reused: bool) returns (c: Client)
    ensures OldReached(c) && OldAt(c, reused, ReadServerHello, ReadHandshake, [])
  {
    hide OldReached, OldAt, Goes, Apply, Enabled;
    c := OldHellos(reused);
    c := OldGoes(c, reused, EnterEarlyData, FlushHandshake, []);
    c := OldWaits(c, reused, ReadServerHello);
  }

  lemma OldHellos(reused: bool) returns (c: Client)
    ensures OldReached(c) && OldAt(c, reused, EnterEarlyData, FlushHandshake, [])
  {
    hide OldReached, Goes, OnMessage12, OnMessage13, OnQuiet, Settle;
    OldBegin();
    OldConnects(reused);
    c := Apply(OldConfig(), NewClient(), OldTurn(reused));
    OldSettled(OnQuiet(OldConfig(), NewClient(), OldTurn(reused).o), reused, EnterEarlyData, FlushHandshake, []);
    OldDoes(NewClient(), reused);
  }

  lemma OldConnects(reused: bool)
    ensures OldAt(OnQuiet(OldConfig(), NewClient(), OldTurn(reused).o), reused, EnterEarlyData, FlushHandshake, [])
  {
    hide Descends;
  }

  lemma OldBegin()
    ensures OldReached(NewClient())
  {
    assert Reachable(OldConfig(), NewClient(), 0);
  }

  /** Messages arrive. */
  lemma OldGets(c: Client, reused: bool, s: ClientState, ms: seq<Message>) returns (d: Client)
    requires OldReached(c) && OldAt(c, reused, s, ReadHandshake, []) && !s.Done?
    ensures OldReached(d) && OldAt(d, reused, s, Ok, ms)
  {
    hide OldReached, Turn;
    d := Apply(OldConfig(), c, Deliver(ms, false));
    assert [] + ms == ms;
    OldActs(c, Deliver(ms, false));
  }

  /** The server answers with TLS 1.2. */
  lemma OldAnswers(c: Client, reused: bool, rest: seq<Message>) returns (d: Client)
    requires OldReached(c) && OldAt(c, reused, ReadServerHello, Ok, [OldHello] + rest)
    ensures OldReached(d) && OldAt(d, reused, ReadServerCertificate, Ok, rest)
  {
    hide OldReached, Goes, OnMessage12, OnQuiet, OnServerHello, Settle, Peeked;
    var o := OldTurn(reused).o;
    d := Apply(OldConfig(), c, OldTurn(reused));
    OldLooks(c, OldHello, rest);
    OldHelloRead(Peeked(c), reused, rest);
    OldSettled(OnServerHello(OldConfig(), Peeked(c), OldHello, o), reused, ReadServerCertificate, Ok, rest);
    OldDoes(c, reused);
  }

  lemma OldHelloRead(p: Client, reused: bool, rest: seq<Message>)
    requires p.k.io.cache == Some(OldHello)
    requires OldAt(p.(k := p.k.(io := p.k.io.(cache := None))), reused, ReadServerHello, Ok, rest)
    ensures OldAt(OnServerHello(OldConfig(), p, OldHello, OldTurn(reused).o), reused, ReadServerCertificate, Ok, rest)
  {
    hide Descends;
  }

  lemma FullRun()
    ensures Goes(SendChangeCipherSpec, SendClientFinished) && Goes(SendClientFinished, FinishFlight)
    ensures Goes(FinishFlight, ReadSessionTicket)
  {
    hide OldReached, OldAt, Goes;
    var c := OldStarts(false);
    c := OldGets(c, false, ReadServerHello, [OldHello] + ([ServerKeyExchange(0)] + [ServerHelloDone]));
    c := OldAnswers(c, false, [ServerKeyExchange(0)] + [ServerHelloDone]);
    c := OldGoes(c, false, ReadServerCertificate, Ok, [ServerKeyExchange(0)] + [ServerHelloDone]);
    c := OldTakes(c, false, ReadServerKeyExchange, ServerKeyExchange(0), [ServerHelloDone]);
    c := OldGoes(c, false, ReadCertificateRequest, Ok, [ServerHelloDone]);
    assert [ServerHelloDone] == [ServerHelloDone] + [];
    c := OldTakes(c, false, ReadServerHelloDone, ServerHelloDone, []);
    c := OldGoes(c, false, SendClientCertificate, Ok, []);
    c := OldGoes(c, false, SendClientKeyExchange, Ok, []);
    c := OldGoes(c, false, SendClientCertificateVerify, Ok, []);
    c := OldGoes(c, false, SendChangeCipherSpec, PackFlight, []);
    c := OldGoes(c, false, SendClientFinished, WriteChangeCipherSpec, []);
    c := OldGoes(c, false, FinishFlight, FlushHandshake, []);
  }

  lemma ResumedRun()
    ensures Goes(ReadSessionTicket, ProcessChangeCipherSpec) && Goes(ProcessChangeCipherSpec, ReadServerFinished)
    ensures Goes(ReadServerFinished, SendChangeCipherSpec)
  {
    hide OldReached, OldAt, Goes;
    var c := OldStarts(true);
    c := OldGets(c, true, ReadServerHello, [OldHello] + []);
    c := OldAnswers(c, true, []);
    c := OldGoes(c, true, ReadServerCertificate, Ok, []);
    c := OldGoes(c, true, ReadSessionTicket, Ok, []);
    c := OldChanges(c);
    c := OldGoes(c, true, ProcessChangeCipherSpec, Ok, []);
    c := OldWaits(c, true, ReadServerFinished);
    c := OldGets(c, true, ReadServerFinished, [FinishedMsg(Zeros)] + []);
    c := OldTakes(c, true, ReadServerFinished, FinishedMsg(Zeros), []);
  }

  /** change_cipher_spec arrives. */
  lemma OldChanges(c: Client) returns (d: Client)
    requires OldReached(c) && OldAt(c, true, ProcessChangeCipherSpec, ReadChangeCipherSpec, [])
    ensures OldReached(d) && OldAt(d, true, ProcessChangeCipherSpec, Ok, [])
  {
    hide OldReached, Turn;
    d := Apply(OldConfig(), c, DeliverCcs);
    OldActs(c, DeliverCcs);
  }

  /** Nothing to read yet. */
  lemma OldWaits(c: Client, reused: bool, s: ClientState) returns (d: Client)
    requires OldReached(c) && OldAt(c, reused, s, Ok, []) && (s.ReadServerHello? || s.ReadServerFinished?)
    ensures OldReached(d) && OldAt(d, reused, s, ReadHandshake, [])
  {
    hide OldReached, Goes, Descends, OnMessage12, OnMessage13, OnQuiet, Sealed;
    d := Apply(OldConfig(), c, OldTurn(reused));
    OldDoes(c, reused);
  }

  /** The TLS 1.2 states form a cycle, since a resumed handshake runs through them in another order: whatever number
      each state has, some handler of some run goes on to a state whose number is not lower. `Rank` needs the flag. */
  lemma CyclicWithoutFlag(r: ClientState -> nat)
    ensures exists s, t :: Goes(s, t) && s != t && r(t) >= r(s)
  {
    hide Goes;
    FullRun();
    ResumedRun();
    assert || r(SendClientFinished) >= r(SendChangeCipherSpec) || r(FinishFlight) >= r(SendClientFinished)
           || r(ReadSessionTicket) >= r(FinishFlight) || r(ProcessChangeCipherSpec) >= r(ReadSessionTicket)
           || r(ReadServerFinished) >= r(ProcessChangeCipherSpec) || r(SendChangeCipherSpec) >= r(ReadServerFinished);
  }

  /** The handshake object as the connection sees it. */
  class Handshake {
    var c: Client

    constructor ()
      ensures c == NewClient()
    {
      c := NewClient();
    }

    /** TLSHandshake.do_handshake: dispatch until done or until a handler returns a status that
        the connection must act upon. The rank and then the unread messages go down. */
    method DoHandshake(g: Config, os: nat -> Oracle) returns (ghost n: nat)
      requires ConfigOk(g) && At(g, c)
      modifies this
      ensures c == Iterate(g, old(c), os, n)
      ensures HandlerInv(g, c)
      ensures !c.end.Running? || c.state.Done? || (n > 0 && c.status != Ok)
    {
      hide At, Inv, HandlerInv, Step, Descends;
      var i := 0;
      n := 0;
      Started(g, c);
      while !c.state.Done?
        invariant i == n && c == Iterate(g, old(c), os, n)
        invariant At(g, c) && HandlerInv(g, c) && (HasHandler(c.state) || c.state.Done?)
        decreases Rank(c.state, c.f.reused), Unread(c.k.io)
      {
        StepKeeps(g, c, os(i));
        ghost var b := c;
        c := Step(g, c, os(i));
        i, n := i + 1, n + 1;
        if !c.end.Running? || c.status != Ok { return; }
        Progress(g, b, c);
      }
    }
  }

  lemma Started(g: Config, c: Client)
    requires At(g, c)
    ensures HandlerInv(g, c) && (HasHandler(c.state) || c.state.Done?)
  {
    hide LiveFirst, LiveDecide, LiveSecond, LiveProtected, LiveClosing, LiveFinal, LiveLegacy;
  }

  lemma Progress(g: Config, b: Client, c: Client)
    requires ConfigOk(g) && HandlerInv(g, c) && Descends(b, c) && c.end.Running? && c.status == Ok
    ensures At(g, c) && (HasHandler(c.state) || c.state.Done?)
    ensures Rank(c.state, c.f.reused) < Rank(b.state, b.f.reused)
            || (Rank(c.state, c.f.reused) == Rank(b.state, b.f.reused) && Unread(c.k.io) < Unread(b.k.io))
  {
    hide Live, Log, NoncesOk, Unread;
  }
}
