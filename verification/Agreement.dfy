/** Client and server together: once both are done they hold the same secrets in opposite roles. */
module Agreement {
  import opened Wire
  import opened HandshakeCore
  import C = ClientMachine
  import CI = ClientInv
  import CR = ClientRuns
  import S = ServerMachine
  import SI = ServerInv
  import SR = ServerRuns

  // A reliable channel in each direction

  /** What was handed in so far is a prefix of what the peer sent so far. */
  predicate Fifo(c: C.Client, s: S.Server)
  {
    c.k.io.fed <= Of(s.k.io.wire, Sent) && s.k.io.fed <= Of(c.k.io.wire, Sent)
  }

  /** A run of both parties over such channels, in any interleaving. */
  ghost predicate Run(gc: C.Config, gs: S.Config, c: C.Client, s: S.Server, n: nat)
    decreases n
  {
    if n == 0 then c == C.NewClient() && s == S.NewServer() else
    && Fifo(c, s)
    && (|| (exists b, a :: Run(gc, gs, b, s, n - 1) && C.Enabled(b, a) && c == C.Apply(gc, b, a))
        || (exists b, a :: Run(gc, gs, c, b, n - 1) && S.Enabled(b, a) && s == S.Apply(gs, b, a)))
  }

  ghost predicate ClientReaches(gc: C.Config, c: C.Client) { exists n: nat :: C.Reachable(gc, c, n) }

  ghost predicate ServerReaches(gs: S.Config, s: S.Server) { exists n: nat :: S.Reachable(gs, s, n) }

  lemma ClientSteps(gc: C.Config, b: C.Client, a: C.Action)
    requires ClientReaches(gc, b) && C.Enabled(b, a)
    ensures ClientReaches(gc, C.Apply(gc, b, a))
  {
    hide C.Apply, C.Enabled;
    var n: nat :| C.Reachable(gc, b, n);
    assert C.Reachable(gc, C.Apply(gc, b, a), n + 1);
  }

  lemma ServerSteps(gs: S.Config, b: S.Server, a: S.Action)
    requires ServerReaches(gs, b) && S.Enabled(b, a)
    ensures ServerReaches(gs, S.Apply(gs, b, a))
  {
    hide S.Apply, S.Enabled;
    var n: nat :| S.Reachable(gs, b, n);
    assert S.Reachable(gs, S.Apply(gs, b, a), n + 1);
  }

  /** In a joint run each party is in a state of a run of its own. */
  lemma {:induction false} RunReaches(gc: C.Config, gs: S.Config, c: C.Client, s: S.Server, n: nat)
    requires Run(gc, gs, c, s, n)
    ensures Fifo(c, s) && ClientReaches(gc, c) && ServerReaches(gs, s)
    decreases n
  {
    hide C.Apply, S.Apply, C.Enabled, S.Enabled, Fifo, ClientReaches, ServerReaches;
    if n == 0 { StartReaches(gc, gs); }
    else if b, a :| Run(gc, gs, b, s, n - 1) && C.Enabled(b, a) && c == C.Apply(gc, b, a) {
      RunReaches(gc, gs, b, s, n - 1);
      ClientSteps(gc, b, a);
    } else {
      var b, a :| Run(gc, gs, c, b, n - 1) && S.Enabled(b, a) && s == S.Apply(gs, b, a);
      RunReaches(gc, gs, c, b, n - 1);
      ServerSteps(gs, b, a);
    }
  }

  lemma StartReaches(gc: C.Config, gs: S.Config)
    ensures Fifo(C.NewClient(), S.NewServer()) && ClientReaches(gc, C.NewClient()) && ServerReaches(gs, S.NewServer())
  {
    assert C.Reachable(gc, C.NewClient(), 0) && S.Reachable(gs, S.NewServer(), 0);
    assert Of([], Sent) == [];
  }

  // Finished messages come from the peer

  lemma {:induction false} ReceivedIsLogged(w: seq<Event>, m: Message)
    requires Event(Received, m) in w
    ensures m in Of(w, Received)
  {
    if w[|w| - 1] != Event(Received, m) { ReceivedIsLogged(w[..|w| - 1], m); }
  }

  lemma {:induction false} SentFinal(w: seq<Event>, v: Term)
    requires FinishedMsg(v) in Of(w, Sent)
    ensures v in Finals(w)
  {
    var e := w[|w| - 1];
    if e != Event(Sent, FinishedMsg(v)) {
      assert FinishedMsg(v) in Of(w[..|w| - 1], Sent);
      SentFinal(w[..|w| - 1], v);
    }
  }

  /** A Finished message that one side consumed was sent by the other. */
  lemma FinishedFromPeer(mine: Io, peer: Io, v: Term)
    requires Conserved(mine) && mine.fed <= Of(peer.wire, Sent) && Event(Received, FinishedMsg(v)) in mine.wire
    ensures v in Finals(peer.wire)
  {
    ReceivedIsLogged(mine.wire, FinishedMsg(v));
    assert FinishedMsg(v) in mine.fed;
    SentFinal(peer.wire, v);
  }

  // Agreement

  predicate ClientPast(c: C.Client)
  {
    c.end.Running? && c.f.version13 && (CI.InClosing(c.state) || CI.InFinal(c.state))
  }

  /** Verify data determines the hash, the secret and the transcript it was computed from. */
  lemma VerifyDataInjective(h: nat, s: Term, t: Transcript, h': nat, s': Term, t': Transcript)
    requires VerifyData(h, s, t) == VerifyData(h', s', t')
    ensures h == h' && s == s' && t == t'
  {}

  lemma ClientFacts(gc: C.Config, c: C.Client, n: nat)
    requires C.ConfigOk(gc) && C.Reachable(gc, c, n) && ClientPast(c)
    ensures CI.Updated(gc, c) && CI.Accepts(c) && Conserved(c.k.io)
    ensures CI.InFinal(c.state) ==> CI.Finishes(c)
  {
    hide CI.Live, C.Reachable, NoncesOk, VerifyData, CI.AppKeys, CI.FinalRecords, CI.OwnFinals, Conserved, Faithful,
         Ups;
    CR.ReachableInv(gc, c, n);
    CI.LiveAt(gc, c);
  }

  /** A server that sent a TLS 1.3 Finished is past it, and sent exactly that one. */
  lemma ServerFacts(gs: S.Config, s: S.Server, n: nat, v: Term)
    requires S.Reachable(gs, s, n) && s.end.Running? && v in Finals(s.k.io.wire) && v.Mac?
    ensures s.f.version13 && SI.Updated(s)
    ensures v == VerifyData(s.k.keys.enc[Handshake].hash, s.k.keys.enc[Handshake], s.h.at)
  {
    hide SI.Live, S.Reachable, NoncesOk, VerifyData, SI.AppKeys, SI.AppRecords, SI.Logged, SI.ProtectedKeys, KeyTop,
         ExtractKey, Finals, Ups, Marked, Answering, HellosOnly, SI.Origin, SI.RetrySent, SI.TookFrom;
    SR.ReachableInv(gs, s, n);
    if s.state.StartAccept? { SR.NotWaiting(gs, s); Nothing(); }
    else if SI.InLegacy(s.state) { SI.LegacyAt(gs, s); }
    else { SI.LiveAt(gs, s); if s.k.io.wire == [] { Nothing(); } }
  }

  lemma Nothing()
    ensures Finals([]) == []
  {}

  predicate BothEpochs(k: Keys)
  {
    Handshake in k.enc && Handshake in k.dec && ApplicationData in k.enc && ApplicationData in k.dec
  }

  /** How many key updates a party has put into use for writing and for reading. */
  function ClientWrites(c: C.Client): int { Ups(c.k.io.wire, Sent) - CI.Pending(c.state) }

  function ServerWrites(s: S.Server): int { Ups(s.k.io.wire, Sent) - SI.Pending(s.state) }

  /** The secrets of client and server in the two epochs, in opposite roles: the application
      secrets are generations of the same two secrets, each as many as there were updates. */
  predicate SameSecrets(c: C.Client, s: S.Server)
  {
    && BothEpochs(c.k.keys) && BothEpochs(s.k.keys) && ClientWrites(c) >= 0 && ServerWrites(s) >= 0
    && c.k.keys.enc[Handshake] == s.k.keys.dec[Handshake] && c.k.keys.dec[Handshake] == s.k.keys.enc[Handshake]
    && var hs := c.k.keys.dec[Handshake];
       && hs.Expand?
       && var x, y := AppSecret(hs, ClientAp, c.h.at), AppSecret(hs, ServerAp, c.h.at);
          && c.k.keys.enc[ApplicationData] == Generation(hs.hash, x, ClientWrites(c))
          && s.k.keys.dec[ApplicationData] == Generation(hs.hash, x, Ups(s.k.io.wire, Received))
          && s.k.keys.enc[ApplicationData] == Generation(hs.hash, y, ServerWrites(s))
          && c.k.keys.dec[ApplicationData] == Generation(hs.hash, y, Ups(c.k.io.wire, Received))
  }

  /** Keys that grew from one handshake secret and one transcript agree. */
  lemma KeysAgree(gc: C.Config, c: C.Client, s: S.Server)
    requires CI.Updated(gc, c) && SI.Updated(s) && c.h.at == s.h.at
    requires c.k.keys.dec[Handshake] == s.k.keys.enc[Handshake]
    ensures SameSecrets(c, s) && SameStart(gc, c, s)
  {
    hide AppSecret, Ups, Generation;
  }

  /** The early secret a schedule started from. */
  function FirstSecret(psk: Option<Schedule>, hash: nat): Term
  {
    if psk.Some? then psk.value.secret else ExtractKey(NewSchedule(hash), None).secret
  }

  predicate SameStart(gc: C.Config, c: C.Client, s: S.Server)
  {
    && Handshake in c.k.keys.dec && c.k.keys.dec[Handshake].Expand?
    && FirstSecret(if c.f.reused then gc.psk else None, c.k.keys.dec[Handshake].hash)
       == FirstSecret(s.psk, c.k.keys.dec[Handshake].hash)
  }

  /** As soon as the client has accepted a Finished that the server sent, whatever else was done to
      the messages between them: both run TLS 1.3, hold the same secrets in opposite roles,
      hashed the same transcript up to there, and started from the same early secret. */
  lemma AgreeOnFinished(gc: C.Config, c: C.Client, n: nat, gs: S.Config, s: S.Server, k: nat)
    requires C.ConfigOk(gc) && C.Reachable(gc, c, n) && ClientPast(c)
    requires S.Reachable(gs, s, k) && s.end.Running?
    requires forall v :: Event(Received, FinishedMsg(v)) in c.k.io.wire ==> v in Finals(s.k.io.wire)
    ensures s.f.version13 && c.h.at == s.h.at && SameSecrets(c, s) && SameStart(gc, c, s)
  {
    hide C.Reachable, S.Reachable, Conserved, Finals, StartedFrom, AppSecret, SameSecrets, SameStart, Generation, Ups;
    ClientFacts(gc, c, n);
    assert CI.Accepts(c);
    var d := c.k.keys.dec[Handshake];
    var v := VerifyData(d.hash, d, c.h.at);
    assert v in Finals(s.k.io.wire);
    ServerFacts(gs, s, k, v);
    VerifyDataInjective(d.hash, d, c.h.at, s.k.keys.enc[Handshake].hash, s.k.keys.enc[Handshake], s.h.at);
    KeysAgree(gc, c, s);
  }

  /** The same from the server's side: the Finished it accepted covers what the client's covers. */
  lemma AgreeOnClosing(gc: C.Config, c: C.Client, n: nat, gs: S.Config, s: S.Server, k: nat)
    requires C.ConfigOk(gc) && C.Reachable(gc, c, n) && ClientPast(c) && CI.InFinal(c.state)
    requires S.Reachable(gs, s, k) && s.end.Running? && SI.InFinal(s.state) && s.f.version13
    requires forall v :: Event(Received, FinishedMsg(v)) in s.k.io.wire ==> v in Finals(c.k.io.wire)
    ensures c.h.closed == s.h.closed
  {
    hide C.Reachable, S.Reachable, Conserved, Finals, StartedFrom, AppSecret, SI.Live, SI.Logged, NoncesOk,
         SI.AppRecords, Generation, Ups, Marked, SI.Origin, Faithful;
    ClientFacts(gc, c, n);
    SR.ReachableInv(gs, s, k);
    SI.LiveAt(gs, s);
    var d := s.k.keys.dec[Handshake];
    var v := VerifyData(d.hash, d, s.h.closed);
    assert v in Finals(c.k.io.wire);
    var i :| 0 <= i < |Finals(c.k.io.wire)| && Finals(c.k.io.wire)[i] == v;
    assert i == 0;
    VerifyDataInjective(d.hash, d, s.h.closed, c.k.keys.enc[Handshake].hash, c.k.keys.enc[Handshake], c.h.closed);
  }

  /** In every joint run over reliable channels in which both parties are done and the client
      speaks TLS 1.3 (full or resumed, with or without HelloRetryRequest, ECH or early data),
      each party's write secret is the other's read secret in both epochs, but for the key updates
      that are still under way, and the transcripts agree at both Finished messages. */
  lemma SecretsAgreeWhenDone(gc: C.Config, gs: S.Config, c: C.Client, s: S.Server, n: nat)
    requires C.ConfigOk(gc) && Run(gc, gs, c, s, n)
    requires c.end.Running? && c.state.Done? && c.f.version13 && s.end.Running? && s.state.Done?
    ensures s.f.version13 && c.h.at == s.h.at && c.h.closed == s.h.closed && SameSecrets(c, s) && SameStart(gc, c, s)
    ensures Ups(s.k.io.wire, Received) <= Ups(c.k.io.wire, Sent) && Ups(c.k.io.wire, Received) <= Ups(s.k.io.wire, Sent)
  {
    hide C.Reachable, S.Reachable, Conserved, Finals, Run, SI.Inv, Of, SameSecrets, SameStart, Ups, CI.Updated,
         CI.Finishes;
    RunReaches(gc, gs, c, s, n);
    var i: nat :| C.Reachable(gc, c, i);
    var j: nat :| S.Reachable(gs, s, j);
    ClientFacts(gc, c, i);
    forall v | Event(Received, FinishedMsg(v)) in c.k.io.wire ensures v in Finals(s.k.io.wire) {
      FinishedFromPeer(c.k.io, s.k.io, v);
    }
    AgreeOnFinished(gc, c, i, gs, s, j);
    ServerConserved(gs, s, j);
    forall v | Event(Received, FinishedMsg(v)) in s.k.io.wire ensures v in Finals(c.k.io.wire) {
      FinishedFromPeer(s.k.io, c.k.io, v);
    }
    AgreeOnClosing(gc, c, i, gs, s, j);
    UpdatesArrive(s.k.io, c.k.io);
    UpdatesArrive(c.k.io, s.k.io);
  }

  /** With nothing under way each application secret is the same on both sides. */
  lemma SecretsEqualWhenQuiet(gc: C.Config, gs: S.Config, c: C.Client, s: S.Server, n: nat)
    requires C.ConfigOk(gc) && Run(gc, gs, c, s, n)
    requires c.end.Running? && c.state.Done? && c.f.version13 && s.end.Running? && s.state.Done?
    requires Of(c.k.io.wire, Received) == Of(s.k.io.wire, Sent) && Of(s.k.io.wire, Received) == Of(c.k.io.wire, Sent)
    ensures BothEpochs(c.k.keys) && BothEpochs(s.k.keys)
    ensures c.k.keys.enc[ApplicationData] == s.k.keys.dec[ApplicationData]
    ensures c.k.keys.dec[ApplicationData] == s.k.keys.enc[ApplicationData]
  {
    hide Run, Of, Ups, Generation, AppSecret, SameStart;
    SecretsAgreeWhenDone(gc, gs, c, s, n);
    UpsCount(c.k.io.wire, Sent); UpsCount(c.k.io.wire, Received);
    UpsCount(s.k.io.wire, Sent); UpsCount(s.k.io.wire, Received);
  }

  lemma ServerConserved(gs: S.Config, s: S.Server, n: nat)
    requires S.Reachable(gs, s, n)
    ensures Conserved(s.k.io)
  {
    hide SI.Live, S.Reachable, Conserved, Faithful, NoncesOk, TranscriptOf;
    SR.ReachableInv(gs, s, n);
  }

  // Key updates on the wire

  function Updates(ms: seq<Message>): (n: nat)
  {
    if ms == [] then 0 else Updates(ms[..|ms| - 1]) + (if ms[|ms| - 1].KeyUpdate? then 1 else 0)
  }

  lemma {:induction false} UpsCount(w: seq<Event>, d: Direction)
    ensures Ups(w, d) == Updates(Of(w, d))
  {
    if w != [] {
      var n := |w| - 1;
      UpsCount(w[..n], d);
      if w[n].direction == d { assert Of(w, d)[..|Of(w, d)| - 1] == Of(w[..n], d); }
      else { assert Of(w, d) == Of(w[..n], d); }
    }
  }

  lemma {:induction false} UpdatesPrefix(a: seq<Message>, b: seq<Message>)
    requires a <= b
    ensures Updates(a) <= Updates(b)
    decreases |b|
  {
    if |a| < |b| {
      assert a <= b[..|b| - 1];
      UpdatesPrefix(a, b[..|b| - 1]);
    } else { assert a == b; }
  }

  /** Over a FIFO channel no more updates are read than were written. */
  lemma UpdatesArrive(mine: Io, peer: Io)
    requires Conserved(mine) && mine.fed <= Of(peer.wire, Sent)
    ensures Ups(mine.wire, Received) <= Ups(peer.wire, Sent)
  {
    hide Of, Ups;
    UpsCount(mine.wire, Received);
    UpsCount(peer.wire, Sent);
    UpdatesPrefix(Of(mine.wire, Received), Of(peer.wire, Sent));
  }
}
