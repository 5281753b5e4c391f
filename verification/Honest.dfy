/** Honest parties do not only agree when a Finished is accepted: over FIFO channels the logs of
    both sides mirror each other, so transcripts and secrets agree where they are derived and the
    server's Finished verifies. */
module Honest {
  import opened Wire
  import opened HandshakeCore
  import C = ClientMachine
  import CI = ClientInv
  import CR = ClientRuns
  import S = ServerMachine
  import SI = ServerInv
  import SR = ServerRuns
  import opened Agreement

  // Messages of a log by direction

  function Msgs(w: seq<Event>): (r: seq<Message>)
    ensures |r| == |w|
  {
    seq(|w|, i requires 0 <= i < |w| => w[i].m)
  }

  function Other(d: Direction): Direction { if d.Sent? then Received else Sent }

  lemma {:induction false} OfAppend(w: seq<Event>, u: seq<Event>, d: Direction)
    ensures Of(w + u, d) == Of(w, d) + Of(u, d)
  {
    if u == [] { assert w + u == w; }
    else {
      var n := |u| - 1;
      OfAppend(w, u[..n], d);
      assert (w + u)[..|w + u| - 1] == w + u[..n];
    }
  }

  lemma {:induction false} OfOneWay(u: seq<Event>, d: Direction)
    requires forall i :: 0 <= i < |u| ==> u[i].direction == d
    ensures Of(u, d) == Msgs(u) && Of(u, Other(d)) == []
  {
    if u != [] {
      var n := |u| - 1;
      OfOneWay(u[..n], d);
      assert Msgs(u) == Msgs(u[..n]) + [u[n].m];
    }
  }

  lemma OfOne(e: Event, d: Direction)
    ensures Of([e], d) == if e.direction == d then [e.m] else []
  {
    assert [e][..0] == [];
  }

  /** The hellos and the retry request by direction. */
  lemma OpeningOf(w: seq<Event>, retried: bool, mine: Direction)
    requires HellosOnly(w, retried, mine)
    ensures Of(w, mine) == if retried then [w[0].m, w[2].m] else [w[0].m]
    ensures Of(w, Other(mine)) == if retried then [w[1].m] else []
  {
    hide Of;
    if retried {
      assert w[..2][0] == w[0] && w[..2][1] == w[1];
      assert w == ([w[0]] + [w[1]]) + [w[2]];
      forall d ensures Of(w, d) == Of([w[0]], d) + Of([w[1]], d) + Of([w[2]], d) {
        OfAppend([w[0]] + [w[1]], [w[2]], d);
        OfAppend([w[0]], [w[1]], d);
      }
      OfOne(w[0], mine); OfOne(w[1], mine); OfOne(w[2], mine);
      OfOne(w[0], Other(mine)); OfOne(w[1], Other(mine)); OfOne(w[2], Other(mine));
    } else {
      assert w == [w[0]];
      OfOne(w[0], mine); OfOne(w[0], Other(mine));
    }
  }

  /** A server flight by direction: the hellos on one side, all else on the other. */
  lemma FlightOf(w: seq<Event>, retried: bool, mine: Direction)
    requires ServerFlight(w, retried, mine)
    ensures Of(w, mine) == if retried then [w[0].m, w[2].m] else [w[0].m]
    ensures Of(w, Other(mine)) == (if retried then [w[1].m] else []) + Msgs(w[OpeningLength(retried)..])
  {
    hide Of, Msgs;
    var n := OpeningLength(retried);
    var a, u := w[..n], w[n..];
    assert w == a + u;
    OfAppend(a, u, mine);
    OfAppend(a, u, Other(mine));
    forall i | 0 <= i < |u| ensures u[i].direction == Other(mine) { assert Flown(w[n + i], mine); }
    OfOneWay(u, Other(mine));
    if retried { assert a[..2] == w[..2]; }
    OpeningOf(a, retried, mine);
  }

  lemma NoFinishedYet(w: seq<Event>, retried: bool, mine: Direction)
    requires ServerFlight(w, retried, mine)
    ensures forall m <- Of(w, Other(mine)) :: !m.FinishedMsg?
  {
    hide Of;
    FlightOf(w, retried, mine);
    var n := OpeningLength(retried);
    forall m | m in Of(w, Other(mine)) ensures !m.FinishedMsg? {
      if retried && m == w[1].m { assert w[..2][1] == w[1]; }
      else {
        var i :| 0 <= i < |w[n..]| && w[n..][i].m == m;
        assert Flown(w[n + i], mine);
      }
    }
  }

  // The logs mirror each other

  /** The first Finished of a stream is in one place only. */
  lemma SamePlace(a: seq<Message>, x: Message, b: seq<Message>, y: Message, all: seq<Message>)
    requires a + [x] <= all && b + [y] <= all && x.FinishedMsg? && y.FinishedMsg?
    requires (forall m <- a :: !m.FinishedMsg?) && (forall m <- b :: !m.FinishedMsg?)
    ensures a == b && x == y
  {
    assert all[|a|] == x && all[|b|] == y && all[..|a|] == a && all[..|b|] == b;
    forall i | 0 <= i < |a| ensures !all[i].FinishedMsg? { assert all[i] == a[i] && a[i] in a; }
    forall i | 0 <= i < |b| ensures !all[i].FinishedMsg? { assert all[i] == b[i] && b[i] in b; }
  }

  lemma MirrorTail(c: seq<Event>, s: seq<Event>, n: nat)
    requires n <= |c| && n <= |s| && Msgs(c[n..]) == Msgs(s[n..]) && (forall i :: 0 <= i < n ==> c[i].m == s[i].m)
    ensures Msgs(c) == Msgs(s)
  {
    assert |c| - n == |Msgs(c[n..])| == |s| - n;
    forall i | 0 <= i < |c| ensures c[i].m == s[i].m {
      if i >= n { assert Msgs(c[n..])[i - n] == Msgs(s[n..])[i - n]; }
    }
  }

  lemma MirrorOnce(c: seq<Event>, s: seq<Event>)
    requires ServerFlight(c, false, Sent) && ServerFlight(s, false, Received)
    requires Of(c, Received) == Of(s, Sent) && Of(s, Received) <= Of(c, Sent)
    ensures Msgs(c) == Msgs(s)
  {
    hide Of, Msgs;
    FlightOf(c, false, Sent);
    FlightOf(s, false, Received);
    assert c[0].m == Of(c, Sent)[0] && Of(s, Received)[0] == s[0].m;
    assert [] + Msgs(c[1..]) == Msgs(c[1..]) && [] + Msgs(s[1..]) == Msgs(s[1..]);
    MirrorTail(c, s, 1);
  }

  lemma MirrorTwice(c: seq<Event>, s: seq<Event>)
    requires ServerFlight(c, true, Sent) && ServerFlight(s, true, Received)
    requires Of(c, Received) == Of(s, Sent) && Of(s, Received) <= Of(c, Sent)
    ensures Msgs(c) == Msgs(s)
  {
    hide Of, Msgs;
    FlightOf(c, true, Sent);
    FlightOf(s, true, Received);
    assert c[0].m == Of(c, Sent)[0] && Of(s, Received)[0] == s[0].m;
    assert c[2].m == Of(c, Sent)[1] && Of(s, Received)[1] == s[2].m;
    assert c[1].m == Of(c, Received)[0] && Of(s, Sent)[0] == s[1].m;
    assert Of(c, Received)[1..] == Msgs(c[3..]) && Of(s, Sent)[1..] == Msgs(s[3..]);
    MirrorTail(c, s, 3);
  }

  lemma Mirror(c: seq<Event>, rc: bool, s: seq<Event>, rs: bool)
    requires ServerFlight(c, rc, Sent) && |c| > OpeningLength(rc) && ServerFlight(s, rs, Received)
             && |s| > OpeningLength(rs)
    requires Of(c, Received) == Of(s, Sent) && Of(s, Received) <= Of(c, Sent)
    ensures rc == rs && Msgs(c) == Msgs(s)
  {
    hide Of, ServerFlight, Msgs;
    FirstAnswer(c, rc, Sent);
    FirstAnswer(s, rs, Received);
    if rc { MirrorTwice(c, s); } else { MirrorOnce(c, s); }
  }

  /** The server's first message asks again exactly if there were two hellos. */
  lemma FirstAnswer(w: seq<Event>, retried: bool, mine: Direction)
    requires ServerFlight(w, retried, mine) && |w| > OpeningLength(retried)
    ensures Of(w, Other(mine)) != [] && (IsRetry(Of(w, Other(mine))[0]) <==> retried)
  {
    hide Of;
    FlightOf(w, retried, mine);
    var n := OpeningLength(retried);
    if retried { assert w[..2][1] == w[1]; }
    else { assert Msgs(w[n..])[0] == w[n].m && Flown(w[n], mine); }
  }

  lemma {:induction false} TranscriptByMessages(a: seq<Event>, b: seq<Event>, v: View)
    requires Msgs(a) == Msgs(b)
    ensures TranscriptOf(a, v) == TranscriptOf(b, v)
  {
    if a != [] {
      var n := |a| - 1;
      assert Msgs(a)[n] == Msgs(b)[n];
      forall i | 0 <= i < n ensures a[i].m == b[i].m { assert Msgs(a)[i] == Msgs(b)[i]; }
      assert Msgs(a[..n]) == Msgs(b[..n]);
      TranscriptByMessages(a[..n], b[..n], v);
    }
  }

  /** What the hellos settle is settled by the messages alone. */
  lemma ConfirmedByMessages(a: seq<Event>, b: seq<Event>, retried: bool)
    requires |a| == OpeningLength(retried) + 1 == |b| && TypesOk(a, retried) && TypesOk(b, retried)
    requires Msgs(a) == Msgs(b) && a[OpeningLength(retried)].m.ServerHello? && b[OpeningLength(retried)].m.ServerHello?
    ensures Confirmed(a, retried) == Confirmed(b, retried) && Ikm(a, retried) == Ikm(b, retried)
  {
    hide TranscriptOf, Confirms;
    var n := OpeningLength(retried);
    forall i | 0 <= i <= n ensures a[i].m == b[i].m { assert Msgs(a)[i] == Msgs(b)[i]; }
    forall k | 0 <= k <= n ensures TranscriptOf(a[..k], View(true, true)) == TranscriptOf(b[..k], View(true, true)) {
      assert Msgs(a[..k]) == Msgs(b[..k]);
      TranscriptByMessages(a[..k], b[..k], View(true, true));
    }
  }

  // The server's Finished verifies

  /** Logs that mirror each other settle everything alike: retry, resumption, ECH, hash, key exchange
      and transcript. */
  lemma SameHandshakeSecret(
    wc: seq<Event>, rc: bool, hc: Term, vc: View, uc: bool, ws: seq<Event>, rs: bool, hs: Term, vs: View, us: bool)
    requires Answering(wc, rc, Sent, hc, vc, uc) && Answering(ws, rs, Received, hs, vs, us) && vc.tls13 == vs.tls13
    requires Of(wc, Received) == Of(ws, Sent) && Of(ws, Received) <= Of(wc, Sent)
    ensures rc == rs && uc == us && vc == vs && hc.Expand? && hs.Expand? && hc.secret.Extract? && hs.secret.Extract?
    ensures hc.hash == hs.hash && hc.context == hs.context && hc.secret.ikm == hs.secret.ikm
    ensures TranscriptOf(wc, vc) == TranscriptOf(ws, vs) && wc[0].m == ws[0].m
  {
    hide ServerFlight, Of, TranscriptOf, Confirmed, Ikm;
    Mirror(wc, rc, ws, rs);
    var n := OpeningLength(rc);
    forall i | 0 <= i <= n ensures wc[i].m == ws[i].m { assert Msgs(wc)[i] == Msgs(ws)[i]; }
    assert Msgs(wc[..n + 1]) == Msgs(ws[..n + 1]);
    ConfirmedByMessages(wc[..n + 1], ws[..n + 1], rc);
    TranscriptByMessages(wc, ws, vc);
    TranscriptByMessages(wc[..n + 1], ws[..n + 1], vc);
  }

  /** The client's pre-shared key is the one in the ticket it came with, if the server knows that. */
  predicate TicketsMatch(gc: C.Config, gs: S.Config)
  {
    gc.psk.Some? && gs.open(gc.ticket).Some? ==>
      gc.psk.value == S.FirstSchedule(gc.psk.value.hash, gs.open(gc.ticket))
  }

  /** The server found the ticket where the client put it. */
  lemma SameTicket(gc: C.Config, random: nat, w: seq<Event>, gs: S.Config, psk: Schedule, ws: seq<Event>, inner: bool)
    requires CI.Own(gc, random, w) && |ws| > 0 && w[0].m == ws[0].m && gc.psk.Some? && TicketsMatch(gc, gs)
    requires SI.FromTicket(gs, psk, Seen(ws[0].m, inner)) && (gc.ech ==> inner) && psk.hash == gc.psk.value.hash
    ensures gc.psk == Some(psk)
  {
    hide S.FirstSchedule;
    assert Seen(ws[0].m, inner) == Seen(w[0].m, gc.ech);
  }

  lemma SameSecret(gc: C.Config, reused: bool, kc: Keys, psk: Option<Schedule>, ks: Keys)
    requires CI.SharedKeys(gc, reused, kc) && SI.SharedKeys(psk, ks)
    requires kc.dec[Handshake].hash == ks.enc[Handshake].hash && kc.dec[Handshake].context == ks.enc[Handshake].context
    requires kc.dec[Handshake].secret.ikm == ks.enc[Handshake].secret.ikm
    requires psk == if reused then gc.psk else None
    ensures kc.dec[Handshake] == ks.enc[Handshake]
  {}

  predicate Looking(c: C.Client, v: Term)
  {
    c.end.Running? && c.state.ReadServerFinished13? && Peek(c.k.io).cache == Some(FinishedMsg(v))
  }

  /** A client that waits for the server's Finished. */
  lemma ClientLooking(gc: C.Config, c: C.Client, n: nat)
    requires C.ConfigOk(gc) && C.Reachable(gc, c, n) && c.end.Running? && c.state.ReadServerFinished13?
    ensures CI.ProtectedKeys(gc, c.f.reused, c.k.keys) && Conserved(c.k.io) && Faithful(c.k.io, C.ViewOf(c))
    ensures Answering(c.k.io.wire, c.f.retried, Sent, c.k.keys.dec[Handshake], C.ViewOf(c), c.f.reused)
    ensures c.f.version13 && CI.Own(gc, c.x.random, c.k.io.wire) && (c.f.reused && gc.ech ==> c.f.innerOn)
  {
    hide CI.Live, C.Reachable, NoncesOk, CI.HandshakeRecords, Conserved, Faithful, Answering, Finals, StartedFrom,
         HandshakeShape, CI.Own, Ups;
    CR.ReachableInv(gc, c, n);
    CI.LiveAt(gc, c);
  }

  /** A server that has sent a Finished. */
  lemma ServerDone(gs: S.Config, s: S.Server, n: nat, m: Message)
    requires S.Reachable(gs, s, n) && s.end.Running? && m.FinishedMsg? && m in Of(s.k.io.wire, Sent)
    ensures Conserved(s.k.io) && (!s.f.version13 ==> SI.OldHello(s.k.io.wire, true))
    ensures s.f.version13 ==> SI.Updated(s) && SI.Finishes(s) && SI.Origin(gs, s) && s.f.reused == s.psk.Some?
  {
    hide SI.Live, S.Reachable, NoncesOk, SI.AppKeys, SI.AppRecords, SI.ProtectedKeys, KeyTop, ExtractKey, Finals, Of,
         SI.Logged, Marked, Answering, HellosOnly, AskedAgain, VerifyData, SI.Origin, SI.RetrySent, SI.TookFrom, Ups;
    SR.ReachableInv(gs, s, n);
    SentFinal(s.k.io.wire, m.verify);
    ServerConserved(gs, s, n);
    if s.state.StartAccept? { SR.NotWaiting(gs, s); Nothing(); }
    else if SI.InLegacy(s.state) { SI.LegacyAt(gs, s); OneHello(s.k.io.wire); }
    else { SI.LiveAt(gs, s); if s.k.io.wire == [] { Nothing(); } }
  }

  /** Nothing was sent before the first answer. */
  lemma OneHello(w: seq<Event>)
    ensures |w| == 1 && w[0].direction.Received? ==> Finals(w) == []
  {
    if |w| == 1 { assert w[..0] == []; }
  }

  /** The first message of the server was a TLS 1.3 hello. */
  lemma FirstIsNew(w: seq<Event>, retried: bool, mine: Direction, hs: Term, v: View, reused: bool)
    requires Answering(w, retried, mine, hs, v, reused)
    ensures var r := Of(w, Other(mine)); r != [] && r[0].ServerHello? && r[0].tls13
  {
    hide Of, TranscriptOf, Confirmed, Ikm;
    FlightOf(w, retried, mine);
    var n := OpeningLength(retried);
    if retried { assert w[..2][1] == w[1]; } else { assert Msgs(w[n..])[0] == w[n].m; }
  }

  lemma FirstIsOld(w: seq<Event>)
    requires SI.OldHello(w, true)
    ensures var r := Of(w, Sent); r != [] && r[0].ServerHello? && !r[0].tls13
  {
    hide Of;
    assert w == [w[0]] + [w[1]] + w[2..];
    OfAppend([w[0]] + [w[1]], w[2..], Sent);
    OfAppend([w[0]], [w[1]], Sent);
    OfOne(w[0], Sent); OfOne(w[1], Sent);
  }

  /** What had gone by in either direction before a message. */
  lemma BeforeMark(w: seq<Event>, mark: nat, fin: Event)
    requires mark < |w| && w[mark] == fin
    ensures Of(w[..mark], fin.direction) + [fin.m] <= Of(w, fin.direction)
    ensures Of(w[..mark], Other(fin.direction)) <= Of(w, Other(fin.direction))
  {
    hide Of;
    assert w == (w[..mark] + [fin]) + w[mark + 1..];
    forall d ensures Of(w, d) == (Of(w[..mark], d) + Of([fin], d)) + Of(w[mark + 1..], d) {
      OfAppend(w[..mark] + [fin], w[mark + 1..], d);
      OfAppend(w[..mark], [fin], d);
    }
    OfOne(fin, fin.direction);
    OfOne(fin, Other(fin.direction));
  }

  lemma FlightPart(w: seq<Event>, retried: bool, mine: Direction, hs: Term, v: View, reused: bool)
    requires Answering(w, retried, mine, hs, v, reused)
    ensures forall m <- Of(w, Other(mine)) :: !m.FinishedMsg?
  {
    hide Of, TranscriptOf, Settled;
    NoFinishedYet(w, retried, mine);
  }

  /** What the server consumed before its Finished is what the client sent first. */
  lemma HellosArrive(c: C.Client, s: S.Server)
    requires Fifo(c, s) && Conserved(s.k.io) && s.h.mark < |s.k.io.wire|
    requires Of(s.k.io.wire[..s.h.mark], Received) <= Of(s.k.io.wire, Received)
    ensures Of(s.k.io.wire[..s.h.mark], Received) <= Of(c.k.io.wire, Sent)
  {
    hide Of;
  }

  /** The message that the client looks at next is the next one that the server sent. */
  lemma NextArrives(c: C.Client, s: S.Server, m: Message)
    requires Fifo(c, s) && Conserved(c.k.io) && Peek(c.k.io).cache == Some(m)
    ensures Of(c.k.io.wire, Received) + [m] <= Of(s.k.io.wire, Sent) && m in Of(s.k.io.wire, Sent)
  {
    hide Of;
    assert Of(c.k.io.wire, Received) + [m] <= c.k.io.fed;
    assert (Of(c.k.io.wire, Received) + [m])[|Of(c.k.io.wire, Received)|] == m;
  }

  /** In every joint run: when the client looks at a Finished, both sides run TLS 1.3, agree on
      retry, resumption and ECH, hold the same handshake secret and the same transcript, and the Finished
      verifies. Nothing is asked of the parties but that the ticket the client holds goes with its key. */
  lemma HonestFinishedVerifies(gc: C.Config, gs: S.Config, c: C.Client, s: S.Server, n: nat, v: Term)
    requires C.ConfigOk(gc) && TicketsMatch(gc, gs) && Run(gc, gs, c, s, n) && s.end.Running? && Looking(c, v)
    ensures C.ViewOf(c) == S.ViewOf(s) && c.f.retried == s.f.retried && c.f.reused == s.f.reused
    ensures Handshake in c.k.keys.dec && Handshake in s.k.keys.enc && c.k.keys.dec[Handshake].Expand?
    ensures c.k.keys.dec[Handshake] == s.k.keys.enc[Handshake] && c.k.io.transcript == s.h.at
    ensures v == VerifyData(c.k.keys.dec[Handshake].hash, c.k.keys.dec[Handshake], c.k.io.transcript)
  {
    hide C.Reachable, S.Reachable, Run, Of, Answering, TranscriptOf, StartedFrom, HandshakeShape, VerifyData, Finals,
         AppSecret, Ups, Generation, Conserved, TicketsMatch, CI.Own, SI.FromTicket, SI.OldHello, Fifo, Peek;
    RunReaches(gc, gs, c, s, n);
    var i: nat :| C.Reachable(gc, c, i);
    var j: nat :| S.Reachable(gs, s, j);
    ClientLooking(gc, c, i);
    NextArrives(c, s, FinishedMsg(v));
    ServerDone(gs, s, j, FinishedMsg(v));
    FirstIsNew(c.k.io.wire, c.f.retried, Sent, c.k.keys.dec[Handshake], C.ViewOf(c), c.f.reused);
    if !s.f.version13 { FirstIsOld(s.k.io.wire); }
    SamePast(gc, c, gs, s, v);
  }

  lemma SamePast(gc: C.Config, c: C.Client, gs: S.Config, s: S.Server, v: Term)
    requires CI.ProtectedKeys(gc, c.f.reused, c.k.keys) && Faithful(c.k.io, C.ViewOf(c)) && c.f.version13
             && s.f.version13
    requires Answering(c.k.io.wire, c.f.retried, Sent, c.k.keys.dec[Handshake], C.ViewOf(c), c.f.reused)
    requires CI.Own(gc, c.x.random, c.k.io.wire) && (c.f.reused && gc.ech ==> c.f.innerOn) && TicketsMatch(gc, gs)
    requires SI.Updated(s) && SI.Finishes(s) && SI.Origin(gs, s) && s.f.reused == s.psk.Some? && Conserved(s.k.io)
    requires Fifo(c, s) && Of(c.k.io.wire, Received) + [FinishedMsg(v)] <= Of(s.k.io.wire, Sent)
    ensures C.ViewOf(c) == S.ViewOf(s) && c.f.retried == s.f.retried && c.f.reused == s.f.reused
    ensures c.k.keys.dec[Handshake] == s.k.keys.enc[Handshake] && c.k.io.transcript == s.h.at
    ensures v == VerifyData(c.k.keys.dec[Handshake].hash, c.k.keys.dec[Handshake], c.k.io.transcript)
  {
    hide Of, Answering, TranscriptOf, HandshakeShape, VerifyData, Finals, AppSecret, ExtractKey,
         Ups, Generation, Conserved, TicketsMatch, CI.Own, SI.FromTicket, Fifo;
    var ws, hc, hs := s.k.io.wire, c.k.keys.dec[Handshake], s.k.keys.enc[Handshake];
    var fin := ws[s.h.mark].m;
    BeforeMark(ws, s.h.mark, Event(Sent, fin));
    FlightPart(c.k.io.wire, c.f.retried, Sent, hc, C.ViewOf(c), c.f.reused);
    FlightPart(ws[..s.h.mark], s.f.retried, Received, hs, S.ViewOf(s), s.f.reused);
    SamePlace(Of(c.k.io.wire, Received), FinishedMsg(v), Of(ws[..s.h.mark], Sent), fin, Of(ws, Sent));
    HellosArrive(c, s);
    SameHandshakeSecret(c.k.io.wire, c.f.retried, hc, C.ViewOf(c), c.f.reused,
                        ws[..s.h.mark], s.f.retried, hs, S.ViewOf(s), s.f.reused);
    if c.f.reused { SameTicket(gc, c.x.random, c.k.io.wire, gs, s.psk.value, ws, s.f.innerOn); }
    SameSecret(gc, c.f.reused, c.k.keys, s.psk, s.k.keys);
  }

  // The client's Finished verifies

  /** A client that has sent a Finished. */
  lemma ClientDone(gc: C.Config, c: C.Client, n: nat, m: Message)
    requires C.ConfigOk(gc) && C.Reachable(gc, c, n) && c.end.Running? && m.FinishedMsg? && m in Of(c.k.io.wire, Sent)
    ensures Conserved(c.k.io) && (!c.f.version13 ==> CI.OldAnswer(c.k.io.wire))
    ensures c.f.version13 ==> ClientPast(c) && CI.Shut(c)
  {
    hide CI.Live, C.Reachable, NoncesOk, CI.AppKeys, CI.FinalRecords, CI.ProtectedKeys, KeyTop, Finals, Of, Marked,
         Closed, Answering, HellosOnly, VerifyData, CI.Own, CI.OwnFinals, Ups, Faithful, Conserved;
    CR.ReachableInv(gc, c, n);
    SentFinal(c.k.io.wire, m.verify);
    if c.state.StartConnect? { CR.NotWaiting(gc, c); Nothing(); }
    else if CI.InLegacy(c.state) { CI.LegacyAt(gc, c); }
    else { CI.LiveAt(gc, c); }
  }

  lemma AnswerIsOld(w: seq<Event>)
    requires CI.OldAnswer(w)
    ensures var r := Of(w, Received); r != [] && r[0].ServerHello? && !r[0].tls13
  {
    hide Of;
    assert w == [w[0]] + [w[1]] + w[2..];
    OfAppend([w[0]] + [w[1]], w[2..], Received);
    OfAppend([w[0]], [w[1]], Received);
    OfOne(w[0], Received); OfOne(w[1], Received);
  }

  /** A server that waits for the client's Finished. */
  lemma ServerLooking(gs: S.Config, s: S.Server, n: nat)
    requires S.Reachable(gs, s, n) && s.end.Running? && s.state.ReadClientFinished13?
    ensures s.f.version13 && SI.Updated(s) && SI.Finishes(s) && Conserved(s.k.io) && Faithful(s.k.io, S.ViewOf(s))
    ensures Replied(s.k.io.wire, s.h.mark, Received)
  {
    hide SI.Live, S.Reachable, NoncesOk, SI.AppRecords, StartedFrom, AppSecret, Generation, Finals, Of, Marked,
         VerifyData, SI.Origin, Ups, Faithful, Conserved, Replied;
    SR.ReachableInv(gs, s, n);
    SI.LiveAt(gs, s);
  }

  /** What went out on the side of the hellos: those, and the reply to the server's Finished. */
  lemma ReplyOf(w: seq<Event>, mark: nat, retried: bool, mine: Direction)
    requires mark < |w| && ServerFlight(w[..mark], retried, mine) && w[mark].direction != mine && Replied(w, mark, mine)
    ensures Of(w, mine) == Of(w[..mark], mine) + Msgs(w[mark + 1..])
    ensures forall m <- Of(w, mine) :: !m.FinishedMsg?
  {
    hide Of;
    var a, e, u := w[..mark], w[mark], w[mark + 1..];
    assert w == (a + [e]) + u;
    OfAppend(a + [e], u, mine);
    OfAppend(a, [e], mine);
    OfOne(e, mine);
    forall i | 0 <= i < |u| ensures u[i].direction == mine && !u[i].m.FinishedMsg? { assert u[i] == w[mark + 1 + i]; }
    OfOneWay(u, mine);
    FlightOf(a, retried, mine);
    FlightTypes(a, retried, mine);
  }

  /** Logs with the same messages before the server's Finished and the same reply have the same messages. */
  lemma SameReply(wc: seq<Event>, cm: nat, ws: seq<Event>, sm: nat, retried: bool)
    requires cm < |wc| && sm < |ws| && wc[cm].m == ws[sm].m && Msgs(wc[..cm]) == Msgs(ws[..sm])
    requires ServerFlight(wc[..cm], retried, Sent) && ServerFlight(ws[..sm], retried, Received)
    requires wc[cm].direction.Received? && ws[sm].direction.Sent?
    requires Replied(wc, cm, Sent) && Replied(ws, sm, Received) && Of(wc, Sent) == Of(ws, Received)
    ensures Msgs(wc) == Msgs(ws)
  {
    hide Of, ServerFlight, Replied;
    ReplyOf(wc, cm, retried, Sent);
    ReplyOf(ws, sm, retried, Received);
    SameOpening(wc[..cm], ws[..sm], retried);
    var h := Of(wc[..cm], Sent);
    assert Msgs(wc[cm + 1..]) == (h + Msgs(wc[cm + 1..]))[|h|..]
           && Msgs(ws[sm + 1..]) == (h + Msgs(ws[sm + 1..]))[|h|..];
    assert cm == |Msgs(wc[..cm])| == |Msgs(ws[..sm])| == sm;
    forall i | 0 <= i <= cm ensures wc[i].m == ws[i].m {
      if i < cm { assert Msgs(wc[..cm])[i] == Msgs(ws[..sm])[i]; }
    }
    MirrorTail(wc, ws, cm + 1);
  }

  lemma SameOpening(a: seq<Event>, b: seq<Event>, retried: bool)
    requires ServerFlight(a, retried, Sent) && ServerFlight(b, retried, Received) && Msgs(a) == Msgs(b)
    ensures Of(a, Sent) == Of(b, Received)
  {
    hide Of;
    FlightOf(a, retried, Sent);
    FlightOf(b, retried, Received);
    assert Msgs(a)[0] == Msgs(b)[0];
    if retried { assert Msgs(a)[2] == Msgs(b)[2]; }
  }

  /** Before both Finished messages of the server the logs mirror each other. */
  lemma SameBefore(c: C.Client, s: S.Server)
    requires CI.Passed(c) && SI.Finishes(s) && c.f.version13 && s.f.version13
    requires Of(c.k.io.wire, Received) <= Of(s.k.io.wire, Sent) && Of(s.k.io.wire, Received) <= Of(c.k.io.wire, Sent)
    ensures c.f.retried == s.f.retried && C.ViewOf(c) == S.ViewOf(s)
    ensures Msgs(c.k.io.wire[..c.h.mark]) == Msgs(s.k.io.wire[..s.h.mark])
    ensures c.k.io.wire[c.h.mark].m == s.k.io.wire[s.h.mark].m
  {
    hide Of, Answering, TranscriptOf, VerifyData, Finals, Msgs;
    var wc, ws, hc, hs := c.k.io.wire, s.k.io.wire, c.k.keys.dec[Handshake], s.k.keys.enc[Handshake];
    BeforeMark(wc, c.h.mark, wc[c.h.mark]);
    BeforeMark(ws, s.h.mark, ws[s.h.mark]);
    FlightPart(wc[..c.h.mark], c.f.retried, Sent, hc, C.ViewOf(c), c.f.reused);
    FlightPart(ws[..s.h.mark], s.f.retried, Received, hs, S.ViewOf(s), s.f.reused);
    SamePlace(Of(wc[..c.h.mark], Received), wc[c.h.mark].m, Of(ws[..s.h.mark], Sent), ws[s.h.mark].m, Of(ws, Sent));
    HellosFirst(wc[..c.h.mark], c.f.retried, hc, C.ViewOf(c), c.f.reused,
                ws[..s.h.mark], s.f.retried, hs, S.ViewOf(s), s.f.reused, Of(wc, Sent));
    SameHandshakeSecret(wc[..c.h.mark], c.f.retried, hc, C.ViewOf(c), c.f.reused,
                        ws[..s.h.mark], s.f.retried, hs, S.ViewOf(s), s.f.reused);
    MirrorAnswering(wc[..c.h.mark], c.f.retried, hc, C.ViewOf(c), c.f.reused,
                    ws[..s.h.mark], s.f.retried, hs, S.ViewOf(s), s.f.reused);
  }

  /** The hellos that the server read are all that the client had sent. */
  lemma HellosFirst(
    wc: seq<Event>, rc: bool, hc: Term, vc: View, uc: bool, ws: seq<Event>, rs: bool, hs: Term, vs: View, us: bool,
    all: seq<Message>)
    requires Answering(wc, rc, Sent, hc, vc, uc) && Answering(ws, rs, Received, hs, vs, us)
    requires Of(wc, Received) == Of(ws, Sent) && Of(wc, Sent) <= all && Of(ws, Received) <= all
    ensures Of(ws, Received) <= Of(wc, Sent)
  {
    hide ServerFlight, Of, Settled, Msgs;
    FirstAnswer(wc, rc, Sent);
    FirstAnswer(ws, rs, Received);
    FlightOf(wc, rc, Sent);
    FlightOf(ws, rs, Received);
    assert Of(wc, Sent) == all[..|Of(wc, Sent)|] && Of(ws, Received) == all[..|Of(ws, Received)|];
  }

  lemma MirrorAnswering(
    wc: seq<Event>, rc: bool, hc: Term, vc: View, uc: bool, ws: seq<Event>, rs: bool, hs: Term, vs: View, us: bool)
    requires Answering(wc, rc, Sent, hc, vc, uc) && Answering(ws, rs, Received, hs, vs, us)
    requires Of(wc, Received) == Of(ws, Sent) && Of(ws, Received) <= Of(wc, Sent)
    ensures Msgs(wc) == Msgs(ws)
  {
    hide ServerFlight, Of, Settled, Msgs;
    Mirror(wc, rc, ws, rs);
  }

  /** The rest of the way to the client's Finished. */
  lemma SameClosing(c: C.Client, s: S.Server, u: Term)
    requires CI.Shut(c) && SI.Finishes(s) && c.f.version13 && s.f.version13 && Replied(s.k.io.wire, s.h.mark, Received)
    requires Of(c.k.io.wire, Received) <= Of(s.k.io.wire, Sent)
    requires Of(s.k.io.wire, Received) + [FinishedMsg(u)] <= Of(c.k.io.wire, Sent)
    ensures TranscriptOf(s.k.io.wire, S.ViewOf(s)) == c.h.closed && c.k.keys.enc[Handshake].Expand?
    ensures u == VerifyData(c.k.keys.enc[Handshake].hash, c.k.keys.enc[Handshake], c.h.closed)
  {
    hide Of, Answering, TranscriptOf, VerifyData, Finals, Msgs, Replied;
    SameBefore(c, s);
    var wc, ws, wl := c.k.io.wire, s.k.io.wire, c.k.io.wire[..c.h.last];
    BeforeMark(wc, c.h.last, wc[c.h.last]);
    assert wl[..c.h.mark] == wc[..c.h.mark] && wl[c.h.mark] == wc[c.h.mark];
    AnsweringFlight(wc[..c.h.mark], c.f.retried, Sent, c.k.keys.dec[Handshake], C.ViewOf(c), c.f.reused);
    AnsweringFlight(ws[..s.h.mark], s.f.retried, Received, s.k.keys.enc[Handshake], S.ViewOf(s), s.f.reused);
    ReplyOf(wl, c.h.mark, c.f.retried, Sent);
    ReplyOf(ws, s.h.mark, c.f.retried, Received);
    SamePlace(Of(wl, Sent), wc[c.h.last].m, Of(ws, Received), FinishedMsg(u), Of(wc, Sent));
    SameReply(wl, c.h.mark, ws, s.h.mark, c.f.retried);
    TranscriptByMessages(wl, ws, C.ViewOf(c));
  }

  lemma AnsweringFlight(w: seq<Event>, retried: bool, mine: Direction, hs: Term, v: View, reused: bool)
    requires Answering(w, retried, mine, hs, v, reused)
    ensures ServerFlight(w, retried, mine)
  {}

  /** In every joint run: when the server looks at a Finished of the client, that verifies. */
  lemma HonestClosingVerifies(gc: C.Config, gs: S.Config, c: C.Client, s: S.Server, n: nat, u: Term)
    requires C.ConfigOk(gc) && Run(gc, gs, c, s, n) && c.end.Running? && s.end.Running?
    requires s.state.ReadClientFinished13? && Peek(s.k.io).cache == Some(FinishedMsg(u))
    ensures s.k.keys.schedule.Some? && Handshake in s.k.keys.dec
    ensures u == VerifyData(s.k.keys.schedule.value.hash, s.k.keys.dec[Handshake], s.k.io.transcript)
  {
    hide C.Reachable, S.Reachable, Run, Of, Answering, TranscriptOf, StartedFrom, VerifyData, Finals, AppSecret, Ups,
         Generation, Conserved, CI.OldAnswer, Fifo, Peek, Marked, Closed, Replied, SameStart;
    RunReaches(gc, gs, c, s, n);
    var i: nat :| C.Reachable(gc, c, i);
    var j: nat :| S.Reachable(gs, s, j);
    ServerLooking(gs, s, j);
    NextFromClient(c, s, FinishedMsg(u));
    ClientDone(gc, c, i, FinishedMsg(u));
    ReceivedWasSent(c, s);
    NewOrOld(c, s);
    forall v | Event(Received, FinishedMsg(v)) in c.k.io.wire ensures v in Finals(s.k.io.wire) {
      FinishedArrives(c, s, v);
    }
    AgreeOnFinished(gc, c, i, gs, s, j);
    SameClosing(c, s, u);
  }

  lemma NextFromClient(c: C.Client, s: S.Server, m: Message)
    requires Fifo(c, s) && Conserved(s.k.io) && Peek(s.k.io).cache == Some(m)
    ensures Of(s.k.io.wire, Received) + [m] <= Of(c.k.io.wire, Sent) && m in Of(c.k.io.wire, Sent)
  {
    hide Of;
    assert Of(s.k.io.wire, Received) + [m] <= s.k.io.fed;
    assert (Of(s.k.io.wire, Received) + [m])[|Of(s.k.io.wire, Received)|] == m;
  }

  lemma ReceivedWasSent(c: C.Client, s: S.Server)
    requires Fifo(c, s) && Conserved(c.k.io)
    ensures Of(c.k.io.wire, Received) <= Of(s.k.io.wire, Sent)
  {
    hide Of;
  }

  lemma FinishedArrives(c: C.Client, s: S.Server, v: Term)
    requires Fifo(c, s) && Conserved(c.k.io) && Event(Received, FinishedMsg(v)) in c.k.io.wire
    ensures v in Finals(s.k.io.wire)
  {
    hide Of, Finals, Conserved;
    FinishedFromPeer(c.k.io, s.k.io, v);
  }

  /** A TLS 1.3 server does not talk to a client of an older version. */
  lemma NewOrOld(c: C.Client, s: S.Server)
    requires SI.Finishes(s) && (!c.f.version13 ==> CI.OldAnswer(c.k.io.wire))
    requires Of(c.k.io.wire, Received) <= Of(s.k.io.wire, Sent)
    ensures c.f.version13
  {
    hide Of, Answering, TranscriptOf, VerifyData, Finals, CI.OldAnswer;
    BeforeMark(s.k.io.wire, s.h.mark, s.k.io.wire[s.h.mark]);
    FirstIsNew(s.k.io.wire[..s.h.mark], s.f.retried, Received, s.k.keys.enc[Handshake], S.ViewOf(s), s.f.reused);
    if !c.f.version13 { AnswerIsOld(c.k.io.wire); }
  }
}
