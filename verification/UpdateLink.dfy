/** The two handshake machines, once they are done, are the parties of the key-update model: whatever their users
    do, every record that one of them seals opens under the key that the other has installed. */
module UpdateLink {
  import opened Wire
  import opened HandshakeCore
  import opened KeyUpdates
  import C = ClientMachine
  import CI = ClientInv
  import CR = ClientRuns
  import S = ServerMachine
  import SI = ServerInv
  import SR = ServerRuns
  import A = Agreement

  /** The KeyUpdate that waits to be sent. */
  function Queued(u: Updating): seq<Message>
  {
    if u.Waiting? && u.queued.Some? then [KeyUpdate(u.queued.value)] else []
  }

  /** Key and sequence number of each record. */
  function Uses(rs: seq<Record>): (r: seq<(Term, nat)>)
  {
    seq(|rs|, i requires 0 <= i < |rs| => (rs[i].key, rs[i].seq_))
  }

  /** A machine's keys, counters, pending messages and sealed records (after `base`) are those of the party. */
  predicate Matches(k: Core, p: Party, base: seq<(Term, nat)>)
  {
    && k.keys.schedule.Some? && ApplicationData in k.keys.enc && ApplicationData in k.keys.dec
    && p.write == Traffic(k.keys.schedule.value.hash, k.keys.enc[ApplicationData], k.rec.writeSeq)
    && p.read.hash == k.keys.schedule.value.hash && p.read.secret == k.keys.dec[ApplicationData]
    && k.rec.writeKey == Some(p.write.secret) && k.rec.readKey == Some(p.read.secret)
    && k.io.outgoing == Queued(p.updating) && k.rec.used == base + Uses(p.out)
  }

  lemma SealMatches(k: Core, p: Party, base: seq<(Term, nat)>, x: Content)
    requires Matches(k, p, base)
    ensures Matches(k.(rec := Seal(k.rec)), Emit(p, x), base)
  {
    hide Sealed;
    var r := Record(p.write.secret, p.write.next, x);
    assert Uses(p.out + [r]) == Uses(p.out) + [(r.key, r.seq_)];
    assert base + Uses(p.out) + [(r.key, r.seq_)] == base + (Uses(p.out) + [(r.key, r.seq_)]);
  }

  lemma SealOnce(r: Rec)
    ensures SealMany(r, 1) == Seal(r)
  {
    assert SealMany(r, 1) == SealMany(Seal(r), 0);
  }

  /** _flush_handshake */
  lemma FlushMatches(k: Core, p: Party, base: seq<(Term, nat)>)
    requires Matches(k, p, base)
    ensures Matches(Pack(k, 0), Flush(p), base)
  {
    hide Sealed, SealMany, Seal, Uses;
    if k.io.outgoing != [] {
      SealMatches(k, p, base, UpdateMsg(p.updating.queued.value));
      SealOnce(k.rec);
    }
  }

  lemma FeedMatches(k: Core, p: Party, base: seq<(Term, nat)>, ms: seq<Message>)
    requires Matches(k, p, base)
    ensures Matches(k.(io := Feed(k.io, ms, false)), p, base)
  {
    hide Uses;
  }

  /** A new reading key. */
  lemma ReadMatches(k: Core, p: Party, base: seq<(Term, nat)>)
    requires Matches(k, p, base)
    ensures Matches(UpdateRead(k), p.(read := Rekey(p.read)), base)
  {
    hide Uses;
  }

  /** A KeyUpdate is queued. */
  lemma QueueMatches(k: Core, p: Party, base: seq<(Term, nat)>, r: bool)
    requires Matches(k, p, base) && p.updating.Idle?
    ensures Matches(WriteKeyUpdate(k, r), UpdateKey(p, r), base)
  {
    hide Uses;
  }

  /** A new writing key, once nothing is queued. */
  lemma WriteMatches(k: Core, p: Party, base: seq<(Term, nat)>)
    requires Matches(k, p, base) && p.updating == Waiting(None)
    ensures Matches(UpdateWrite(k), p.(write := Rekey(p.write), updating := Idle), base)
  {
    hide Uses;
  }

  lemma Looks(io: Io, m: Message)
    requires io.cache.None? && io.incoming == []
    ensures var fed := Feed(io, [m], false); Peek(fed) == fed.(cache := Some(m), incoming := [])
  {}

  lemma NothingToRead(io: Io)
    requires io.cache.None? && io.incoming == []
    ensures Peek(io) == io
  {}

  lemma UpdateKeeps(k: Core)
    requires k.keys.schedule.Some? && ApplicationData in k.keys.enc
    ensures UpdateWrite(k).keys.schedule == k.keys.schedule
  {}

  // The client

  const clientOracle: C.Oracle :=
    C.Oracle(true, 0, 0, 0, 0, map[], None, true, true, false, false, false, false, false, 0, 0)

  /** What else is known of a client between calls: done, or in the middle of an update. */
  predicate ClientIs(c: C.Client, p: Party)
  {
    && c.end.Running? && c.f.version13 && c.k.io.cache.None? && c.k.io.incoming == []
    && c.k.keys.schedule.Some? && c.k.keys.schedule.value.generation == 3
    && (if p.updating.Idle? then c.state.Done? else c.state.ProcessUpdateTraffic? && c.status == Ok)
  }

  /** An action, if the client can take it. */
  function ClientDo(g: C.Config, c: C.Client, a: C.Action): C.Client { if C.Enabled(c, a) then C.Apply(g, c, a) else c }

  function ClientTurn(g: C.Config, c: C.Client): C.Client { ClientDo(g, c, C.Handle(clientOracle)) }

  /** do_handshake */
  function ClientSettle(g: C.Config, c: C.Client): C.Client
  {
    if c.state.Done? then c else ClientTurn(g, ClientTurn(g, c))
  }

  /** A record is opened: data and alerts do not concern the handshake, a KeyUpdate is handled at once. */
  function ClientTake(g: C.Config, c: C.Client, x: Content): C.Client
  {
    if x.UpdateMsg? then ClientTurn(g, ClientTurn(g, ClientDo(g, c, C.Deliver([KeyUpdate(x.requested)], false)))) else c
  }

  /** What the user does with a client that stands for `p`; `next` is the peer's next record. */
  function ClientStep(g: C.Config, c: C.Client, p: Party, next: Option<Record>, x: Step): C.Client
  {
    match x
    case DoWrite(_) => if p.closed then c else ClientDo(g, ClientSettle(g, c), C.Send(0))
    case DoUpdate(r) => ClientDo(g, c, C.RequestUpdate(r))
    case DoShutdown => if p.closed then c else ClientDo(g, c, C.Send(0))
    case DoHandshake => ClientSettle(g, c)
    case DoRead => if p.eof || next.None? then c else ClientTake(g, ClientSettle(g, c), next.value.content)
  }

  /** Everything the user does is a run of the machine. */
  lemma ClientDoes(g: C.Config, c: C.Client, a: C.Action)
    requires A.ClientReaches(g, c)
    ensures A.ClientReaches(g, ClientDo(g, c, a))
  {
    hide C.Apply, C.Enabled, A.ClientReaches;
    if C.Enabled(c, a) { A.ClientSteps(g, c, a); }
  }

  lemma ClientRuns(g: C.Config, c: C.Client, p: Party, next: Option<Record>, x: Step)
    requires A.ClientReaches(g, c)
    ensures A.ClientReaches(g, ClientStep(g, c, p, next, x))
  {
    hide ClientDo, A.ClientReaches;
    var h := C.Handle(clientOracle);
    ClientDoes(g, c, h); ClientDoes(g, ClientDo(g, c, h), h);
    var d := ClientSettle(g, c);
    match x
    case DoWrite(_) => ClientDoes(g, d, C.Send(0));
    case DoUpdate(r) => ClientDoes(g, c, C.RequestUpdate(r));
    case DoShutdown => ClientDoes(g, c, C.Send(0));
    case DoHandshake =>
    case DoRead =>
      if next.Some? && next.value.content.UpdateMsg? {
        var a := C.Deliver([KeyUpdate(next.value.content.requested)], false);
        ClientDoes(g, d, a);
        ClientDoes(g, ClientDo(g, d, a), h);
        ClientDoes(g, ClientDo(g, ClientDo(g, d, a), h), h);
      }
  }

  lemma ClientDispatch(g: C.Config, c: C.Client)
    requires c.end.Running? && c.status != ReadHandshake && c.status != ReadChangeCipherSpec
    ensures c.state.ProcessUpdateTraffic? ==>
              ClientTurn(g, c) == C.Settle(C.Go(c, C.CompleteUpdateTraffic, PackFlight), 0)
    ensures c.state.CompleteUpdateTraffic? ==> ClientTurn(g, c) == C.Settle(C.DoCompleteUpdateTraffic(c), 0)
    ensures c.state.ReadPostHandshake? && Peek(c.k.io).cache.None? ==>
              ClientTurn(g, c) == C.Settle(C.Go(C.Peeked(c), C.Done, Ok), 0)
    ensures c.state.ReadPostHandshake? && Peek(c.k.io).cache.Some? ==>
              ClientTurn(g, c) == C.Settle(C.OnPostHandshake(g, C.Peeked(c), Peek(c.k.io).cache.value, clientOracle), 0)
  {
    hide C.Settle, C.DoCompleteUpdateTraffic, C.OnPostHandshake, C.OnMessage12, C.Descends, Peek;
  }

  lemma ClientFlushes(g: C.Config, c: C.Client, p: Party, base: seq<(Term, nat)>)
    requires Matches(c.k, p, base) && c.end.Running? && c.state.ProcessUpdateTraffic? && c.status == Ok
    ensures var d := ClientTurn(g, c); d == C.GoWith(c, Pack(c.k, 0), C.CompleteUpdateTraffic, PackFlight)
    ensures Matches(ClientTurn(g, c).k, Flush(p), base)
  {
    hide ClientTurn, Matches, Pack;
    ClientDispatch(g, c);
    FlushMatches(c.k, p, base);
  }

  lemma ClientRekeys(g: C.Config, c: C.Client, p: Party, base: seq<(Term, nat)>)
    requires Matches(c.k, p, base) && p.updating == Waiting(None) && c.end.Running? && c.state.CompleteUpdateTraffic?
    requires c.status == PackFlight
    ensures var d := ClientTurn(g, c); d == C.GoWith(c, UpdateWrite(c.k), C.Done, Ok)
    ensures Matches(ClientTurn(g, c).k, p.(write := Rekey(p.write), updating := Idle), base)
    ensures ClientTurn(g, c).k.keys.schedule == c.k.keys.schedule
  {
    hide ClientTurn, UpdateWrite;
    ClientDispatch(g, c);
    UpdateKeeps(c.k);
    WriteMatches(c.k, p, base);
  }

  /** do_handshake through the two states of an update. */
  lemma ClientSettles(g: C.Config, c: C.Client, p: Party, base: seq<(Term, nat)>)
    requires Matches(c.k, p, base) && ClientIs(c, p)
    ensures Matches(ClientSettle(g, c).k, Complete(p), base) && ClientIs(ClientSettle(g, c), Complete(p))
  {
    hide ClientTurn, Matches, UpdateWrite, Pack;
    if p.updating.Waiting? {
      ClientFlushes(g, c, p, base);
      ClientRekeys(g, ClientTurn(g, c), Flush(p), base);
    }
  }

  lemma ClientSends(g: C.Config, c: C.Client, p: Party, base: seq<(Term, nat)>, x: Content)
    requires Matches(c.k, p, base) && ClientIs(c, p)
    ensures var d := ClientDo(g, c, C.Send(0));
            Matches(d.k, Emit(Flush(p), x), base) && ClientIs(d, Emit(Flush(p), x))
  {
    hide Matches, Pack, Seal;
    FlushMatches(c.k, p, base);
    SealMatches(Pack(c.k, 0), Flush(p), base, x);
  }

  lemma ClientRequests(g: C.Config, c: C.Client, p: Party, base: seq<(Term, nat)>, r: bool)
    requires Matches(c.k, p, base) && ClientIs(c, p)
    ensures var d := ClientDo(g, c, C.RequestUpdate(r));
            Matches(d.k, UpdateKey(p, r), base) && ClientIs(d, UpdateKey(p, r))
  {
    hide Matches;
    if p.updating.Idle? { QueueMatches(c.k, p, base, r); }
  }

  /** A KeyUpdate that is read, with its answer if one was asked for. */
  lemma ClientTakes(g: C.Config, c: C.Client, p: Party, base: seq<(Term, nat)>, r: bool)
    requires Matches(c.k, p, base) && ClientIs(c, p) && p.updating.Idle?
    ensures var q := p.(read := Rekey(p.read)); var t := if r then Complete(UpdateKey(q, false)) else q;
            var d := ClientTake(g, c, UpdateMsg(r));
            Matches(d.k, t, base) && ClientIs(d, t)
  {
    hide ClientTurn, UpdateWrite, Pack, Matches, UpdateRead, WriteKeyUpdate, Peek;
    var m := KeyUpdate(r);
    var c1 := ClientDo(g, c, C.Deliver([m], false));
    var c2 := ClientTurn(g, c1);
    Looks(c.k.io, m);
    FeedMatches(c.k, p, base, [m]);
    ClientAnswers(g, c1, p, base, m);
    ClientDispatch(g, c2);
    if r {
      var q := UpdateKey(p.(read := Rekey(p.read)), false);
      ClientRekeys(g, c2, Flush(q), base);
    } else {
      NothingToRead(c2.k.io);
    }
  }

  /** The handler of a KeyUpdate. */
  lemma ClientAnswers(g: C.Config, c: C.Client, p: Party, base: seq<(Term, nat)>, m: Message)
    requires Matches(c.k, p, base) && p.updating.Idle? && c.end.Running? && c.f.version13 && c.status == Ok
    requires c.state.ReadPostHandshake? && c.k.keys.schedule.value.generation == 3 && m.KeyUpdate?
    requires Peek(c.k.io) == c.k.io.(cache := Some(m), incoming := []) && !c.k.io.partial
    ensures var d := ClientTurn(g, c); var q := p.(read := Rekey(p.read));
            && d.end.Running? && d.f == c.f && d.k.io.cache.None? && d.k.io.incoming == []
            && d.k.keys.schedule == c.k.keys.schedule
            && (if m.requested
                then d.state.CompleteUpdateTraffic? && d.status == PackFlight
                     && Matches(d.k, Flush(UpdateKey(q, false)), base)
                else d.state.ReadPostHandshake? && d.status == Ok && Matches(d.k, q, base))
  {
    hide ClientTurn, Pack, Peek, Uses;
    ClientDispatch(g, c);
    var k := C.NextUnhashed(C.Peeked(c));
    ReadMatches(k, p, base);
    var q := p.(read := Rekey(p.read));
    QueueMatches(UpdateRead(k), q, base, false);
    FlushMatches(WriteKeyUpdate(UpdateRead(k), false), UpdateKey(q, false), base);
  }

  // The server

  const serverOracle: S.Oracle :=
    S.Oracle(true, 0, true, false, 0, false, false, 0, false, false, false,
             S.Extras(false, false, false, false, false, false, false, None), false, true, true, false, 0, 0)

  /** What else is known of a server between calls: done, or in the middle of an update. */
  predicate ServerIs(s: S.Server, p: Party)
  {
    && s.end.Running? && s.f.version13 && s.k.io.cache.None? && s.k.io.incoming == []
    && s.k.keys.schedule.Some? && s.k.keys.schedule.value.generation == 3
    && (if p.updating.Idle? then s.state.Done? else s.state.ProcessUpdateTraffic? && s.status == Ok)
  }

  /** An action, if the server can take it. */
  function ServerDo(g: S.Config, s: S.Server, a: S.Action): S.Server { if S.Enabled(s, a) then S.Apply(g, s, a) else s }

  function ServerTurn(g: S.Config, s: S.Server): S.Server { ServerDo(g, s, S.Handle(serverOracle)) }

  /** do_handshake */
  function ServerSettle(g: S.Config, s: S.Server): S.Server
  {
    if s.state.Done? then s else ServerTurn(g, ServerTurn(g, s))
  }

  /** A record is opened: data and alerts do not concern the handshake, a KeyUpdate is handled at once. */
  function ServerTake(g: S.Config, s: S.Server, x: Content): S.Server
  {
    if x.UpdateMsg? then ServerTurn(g, ServerTurn(g, ServerDo(g, s, S.Deliver([KeyUpdate(x.requested)], false)))) else s
  }

  /** What the user does with a server that stands for `p`; `next` is the peer's next record. */
  function ServerStep(g: S.Config, s: S.Server, p: Party, next: Option<Record>, x: Step): S.Server
  {
    match x
    case DoWrite(_) => if p.closed then s else ServerDo(g, ServerSettle(g, s), S.Send(0))
    case DoUpdate(r) => ServerDo(g, s, S.RequestUpdate(r))
    case DoShutdown => if p.closed then s else ServerDo(g, s, S.Send(0))
    case DoHandshake => ServerSettle(g, s)
    case DoRead => if p.eof || next.None? then s else ServerTake(g, ServerSettle(g, s), next.value.content)
  }

  /** Everything the user does is a run of the machine. */
  lemma ServerDoes(g: S.Config, s: S.Server, a: S.Action)
    requires A.ServerReaches(g, s)
    ensures A.ServerReaches(g, ServerDo(g, s, a))
  {
    hide S.Apply, S.Enabled, A.ServerReaches;
    if S.Enabled(s, a) { A.ServerSteps(g, s, a); }
  }

  lemma ServerRuns(g: S.Config, s: S.Server, p: Party, next: Option<Record>, x: Step)
    requires A.ServerReaches(g, s)
    ensures A.ServerReaches(g, ServerStep(g, s, p, next, x))
  {
    hide ServerDo, A.ServerReaches;
    var h := S.Handle(serverOracle);
    ServerDoes(g, s, h); ServerDoes(g, ServerDo(g, s, h), h);
    var d := ServerSettle(g, s);
    match x
    case DoWrite(_) => ServerDoes(g, d, S.Send(0));
    case DoUpdate(r) => ServerDoes(g, s, S.RequestUpdate(r));
    case DoShutdown => ServerDoes(g, s, S.Send(0));
    case DoHandshake =>
    case DoRead =>
      if next.Some? && next.value.content.UpdateMsg? {
        var a := S.Deliver([KeyUpdate(next.value.content.requested)], false);
        ServerDoes(g, d, a);
        ServerDoes(g, ServerDo(g, d, a), h);
        ServerDoes(g, ServerDo(g, ServerDo(g, d, a), h), h);
      }
  }

  lemma ServerDispatch(g: S.Config, s: S.Server)
    requires s.end.Running? && (s.status == Ok || s.status == PackFlight)
    ensures s.state.ProcessUpdateTraffic? ==>
              ServerTurn(g, s) == S.Settle(S.Go(s, S.CompleteUpdateTraffic, PackFlight), 0)
    ensures s.state.CompleteUpdateTraffic? ==> ServerTurn(g, s) == S.Settle(S.DoCompleteUpdateTraffic(s), 0)
    ensures s.state.ReadPostHandshake? && Peek(s.k.io).cache.None? ==>
              ServerTurn(g, s) == S.Settle(S.Go(S.Peeked(s), S.Done, Ok), 0)
    ensures s.state.ReadPostHandshake? && Peek(s.k.io).cache.Some? ==>
              ServerTurn(g, s) == S.Settle(S.OnPostHandshake(S.Peeked(s), Peek(s.k.io).cache.value), 0)
  {
    hide S.Settle, S.DoCompleteUpdateTraffic, S.OnPostHandshake, S.OnMessage12, S.Descends, Peek;
  }

  lemma ServerFlushes(g: S.Config, s: S.Server, p: Party, base: seq<(Term, nat)>)
    requires Matches(s.k, p, base) && s.end.Running? && s.state.ProcessUpdateTraffic? && s.status == Ok
    ensures var d := ServerTurn(g, s); d == S.GoWith(s, Pack(s.k, 0), S.CompleteUpdateTraffic, PackFlight)
    ensures Matches(ServerTurn(g, s).k, Flush(p), base)
  {
    hide ServerTurn, Matches, Pack;
    ServerDispatch(g, s);
    FlushMatches(s.k, p, base);
  }

  lemma ServerRekeys(g: S.Config, s: S.Server, p: Party, base: seq<(Term, nat)>)
    requires Matches(s.k, p, base) && p.updating == Waiting(None) && s.end.Running? && s.state.CompleteUpdateTraffic?
    requires s.status == PackFlight
    ensures var d := ServerTurn(g, s); d == S.GoWith(s, UpdateWrite(s.k), S.Done, Ok)
    ensures Matches(ServerTurn(g, s).k, p.(write := Rekey(p.write), updating := Idle), base)
    ensures ServerTurn(g, s).k.keys.schedule == s.k.keys.schedule
  {
    hide ServerTurn, UpdateWrite;
    ServerDispatch(g, s);
    UpdateKeeps(s.k);
    WriteMatches(s.k, p, base);
  }

  /** do_handshake through the two states of an update. */
  lemma ServerSettles(g: S.Config, s: S.Server, p: Party, base: seq<(Term, nat)>)
    requires Matches(s.k, p, base) && ServerIs(s, p)
    ensures Matches(ServerSettle(g, s).k, Complete(p), base) && ServerIs(ServerSettle(g, s), Complete(p))
  {
    hide ServerTurn, Matches, UpdateWrite, Pack;
    if p.updating.Waiting? {
      ServerFlushes(g, s, p, base);
      ServerRekeys(g, ServerTurn(g, s), Flush(p), base);
    }
  }

  lemma ServerSends(g: S.Config, s: S.Server, p: Party, base: seq<(Term, nat)>, x: Content)
    requires Matches(s.k, p, base) && ServerIs(s, p)
    ensures var d := ServerDo(g, s, S.Send(0));
            Matches(d.k, Emit(Flush(p), x), base) && ServerIs(d, Emit(Flush(p), x))
  {
    hide Matches, Pack, Seal;
    FlushMatches(s.k, p, base);
    SealMatches(Pack(s.k, 0), Flush(p), base, x);
  }

  lemma ServerRequests(g: S.Config, s: S.Server, p: Party, base: seq<(Term, nat)>, r: bool)
    requires Matches(s.k, p, base) && ServerIs(s, p)
    ensures var d := ServerDo(g, s, S.RequestUpdate(r));
            Matches(d.k, UpdateKey(p, r), base) && ServerIs(d, UpdateKey(p, r))
  {
    hide Matches;
    if p.updating.Idle? { QueueMatches(s.k, p, base, r); }
  }

  /** A KeyUpdate that is read, with its answer if one was asked for. */
  lemma ServerTakes(g: S.Config, s: S.Server, p: Party, base: seq<(Term, nat)>, r: bool)
    requires Matches(s.k, p, base) && ServerIs(s, p) && p.updating.Idle?
    ensures var q := p.(read := Rekey(p.read)); var t := if r then Complete(UpdateKey(q, false)) else q;
            var d := ServerTake(g, s, UpdateMsg(r));
            Matches(d.k, t, base) && ServerIs(d, t)
  {
    hide ServerTurn, UpdateWrite, Pack, Matches, UpdateRead, WriteKeyUpdate, Peek;
    var m := KeyUpdate(r);
    var s1 := ServerDo(g, s, S.Deliver([m], false));
    var s2 := ServerTurn(g, s1);
    Looks(s.k.io, m);
    FeedMatches(s.k, p, base, [m]);
    ServerAnswers(g, s1, p, base, m);
    ServerDispatch(g, s2);
    if r {
      var q := UpdateKey(p.(read := Rekey(p.read)), false);
      ServerRekeys(g, s2, Flush(q), base);
    } else {
      NothingToRead(s2.k.io);
    }
  }

  /** The handler of a KeyUpdate. */
  lemma ServerAnswers(g: S.Config, s: S.Server, p: Party, base: seq<(Term, nat)>, m: Message)
    requires Matches(s.k, p, base) && p.updating.Idle? && s.end.Running? && s.f.version13 && s.status == Ok
    requires s.state.ReadPostHandshake? && s.k.keys.schedule.value.generation == 3 && m.KeyUpdate?
    requires Peek(s.k.io) == s.k.io.(cache := Some(m), incoming := []) && !s.k.io.partial
    ensures var d := ServerTurn(g, s); var q := p.(read := Rekey(p.read));
            && d.end.Running? && d.f == s.f && d.k.io.cache.None? && d.k.io.incoming == []
            && d.k.keys.schedule == s.k.keys.schedule
            && (if m.requested
                then d.state.CompleteUpdateTraffic? && d.status == PackFlight
                     && Matches(d.k, Flush(UpdateKey(q, false)), base)
                else d.state.ReadPostHandshake? && d.status == Ok && Matches(d.k, q, base))
  {
    hide ServerTurn, Pack, Peek, Uses;
    ServerDispatch(g, s);
    var k := S.NextUnhashed(S.Peeked(s));
    ReadMatches(k, p, base);
    var q := p.(read := Rekey(p.read));
    QueueMatches(UpdateRead(k), q, base, false);
    FlushMatches(WriteKeyUpdate(UpdateRead(k), false), UpdateKey(q, false), base);
  }

  // Both together

  datatype Duo = Duo(c: C.Client, s: S.Server)

  /** The peer's next record. */
  function NextOf(p: Party, peer: Party): Option<Record>
  {
    if p.seen < |peer.out| then Some(peer.out[p.seen]) else None
  }

  function DuoStep(gc: C.Config, gs: S.Config, d: Duo, p: Pair, x: Step, first: bool): Duo
  {
    if first then d.(c := ClientStep(gc, d.c, p.a, NextOf(p.a, p.b), x))
    else d.(s := ServerStep(gs, d.s, p.b, NextOf(p.b, p.a), x))
  }

  /** The two machines under what their users do, in any order; `p` keeps the books. */
  function DuoRun(gc: C.Config, gs: S.Config, d: Duo, p: Pair, xs: seq<(Step, bool)>): Duo
    decreases |xs|
  {
    if xs == [] then d else
    var n := |xs| - 1;
    DuoStep(gc, gs, DuoRun(gc, gs, d, p, xs[..n]), KeyUpdates.Run(p, xs[..n]), xs[n].0, xs[n].1)
  }

  /** Where both machines are where the parties are. */
  predicate Follows(d: Duo, p: Pair, bc: seq<(Term, nat)>, bs: seq<(Term, nat)>)
  {
    Matches(d.c.k, p.a, bc) && ClientIs(d.c, p.a) && Matches(d.s.k, p.b, bs) && ServerIs(d.s, p.b)
  }

  predicate Alike(p: Party, q: Party)
  {
    && p.write == q.write && p.read.hash == q.read.hash && p.read.secret == q.read.secret
    && p.updating == q.updating && p.out == q.out
  }

  lemma MatchesAlike(k: Core, p: Party, q: Party, base: seq<(Term, nat)>)
    requires Matches(k, p, base) && Alike(p, q)
    ensures Matches(k, q, base)
  {
    hide Uses;
  }

  lemma ClientFollows(g: C.Config, c: C.Client, p: Party, peer: Party, base: seq<(Term, nat)>, x: Step)
    requires Matches(c.k, p, base) && ClientIs(c, p)
    requires x.DoRead? && !p.eof && p.seen < |peer.out| ==> Read(p, peer.out[p.seen]).Some?
    ensures var d := ClientStep(g, c, p, NextOf(p, peer), x); var q := StepA(Pair(p, peer, false), x).a;
            Matches(d.k, q, base) && ClientIs(d, q)
  {
    hide Matches, ClientDo, ClientSettle, ClientTake, Flush, Emit, Rekey;
    ClientSettles(g, c, p, base);
    CompleteIdle(p);
    match x
    case DoWrite(id) => if !p.closed { ClientSends(g, ClientSettle(g, c), Complete(p), base, AppData(id)); }
    case DoUpdate(r) => ClientRequests(g, c, p, base, r);
    case DoShutdown =>
      if !p.closed {
        ClientSends(g, c, p, base, CloseNotify);
        MatchesAlike(ClientDo(g, c, C.Send(0)).k, Emit(Flush(p), CloseNotify), Shutdown(p), base);
      }
    case DoHandshake =>
    case DoRead =>
      if !p.eof && p.seen < |peer.out| {
        var e := peer.out[p.seen];
        var d := ClientTake(g, ClientSettle(g, c), e.content);
        if e.content.UpdateMsg? { ClientTakes(g, ClientSettle(g, c), Complete(p), base, e.content.requested); }
        TakenAlike(Complete(p), e);
        ClientOther(g, ClientSettle(g, c), e.content);
        MatchesAlike(d.k, Taken(Complete(p), e.content), Read(p, e).value, base);
      }
  }

  lemma ClientOther(g: C.Config, c: C.Client, x: Content)
    ensures !x.UpdateMsg? ==> ClientTake(g, c, x) == c
  {
    hide ClientTurn, ClientDo;
  }

  lemma ServerFollows(g: S.Config, s: S.Server, p: Party, peer: Party, base: seq<(Term, nat)>, x: Step)
    requires Matches(s.k, p, base) && ServerIs(s, p)
    requires x.DoRead? && !p.eof && p.seen < |peer.out| ==> Read(p, peer.out[p.seen]).Some?
    ensures var d := ServerStep(g, s, p, NextOf(p, peer), x); var q := StepA(Pair(p, peer, false), x).a;
            Matches(d.k, q, base) && ServerIs(d, q)
  {
    hide Matches, ServerDo, ServerSettle, ServerTake, Flush, Emit, Rekey;
    ServerSettles(g, s, p, base);
    CompleteIdle(p);
    match x
    case DoWrite(id) => if !p.closed { ServerSends(g, ServerSettle(g, s), Complete(p), base, AppData(id)); }
    case DoUpdate(r) => ServerRequests(g, s, p, base, r);
    case DoShutdown =>
      if !p.closed {
        ServerSends(g, s, p, base, CloseNotify);
        MatchesAlike(ServerDo(g, s, S.Send(0)).k, Emit(Flush(p), CloseNotify), Shutdown(p), base);
      }
    case DoHandshake =>
    case DoRead =>
      if !p.eof && p.seen < |peer.out| {
        var e := peer.out[p.seen];
        var d := ServerTake(g, ServerSettle(g, s), e.content);
        if e.content.UpdateMsg? { ServerTakes(g, ServerSettle(g, s), Complete(p), base, e.content.requested); }
        TakenAlike(Complete(p), e);
        ServerOther(g, ServerSettle(g, s), e.content);
        MatchesAlike(d.k, Taken(Complete(p), e.content), Read(p, e).value, base);
      }
  }

  lemma ServerOther(g: S.Config, s: S.Server, x: Content)
    ensures !x.UpdateMsg? ==> ServerTake(g, s, x) == s
  {
    hide ServerTurn, ServerDo;
  }

  /** What reading does to a party, but for its counters. */
  function Taken(p: Party, x: Content): Party
  {
    if !x.UpdateMsg? then p
    else var q := p.(read := Rekey(p.read)); if x.requested then Complete(UpdateKey(q, false)) else q
  }

  lemma TakenAlike(p: Party, e: Record)
    requires p.updating.Idle? && Read(p, e).Some?
    ensures Alike(Taken(p, e.content), Read(p, e).value)
    ensures Taken(p, e.content).updating == Read(p, e).value.updating
  {}

  lemma CompleteIdle(p: Party)
    ensures Complete(p).updating.Idle? && Complete(Complete(p)) == Complete(p) && Flush(Complete(p)) == Complete(p)
    ensures forall e: Record :: Read(Complete(p), e) == Read(p, e)
  {}

  lemma DuoKeeps(gc: C.Config, gs: S.Config, d: Duo, p: Pair, bc: seq<(Term, nat)>, bs: seq<(Term, nat)>, x: Step,
                 first: bool)
    requires Good(p) && Follows(d, p, bc, bs)
    ensures Follows(DuoStep(gc, gs, d, p, x, first), StepOf(p, x, first), bc, bs)
  {
    hide Matches, ClientIs, ServerIs, ClientStep, ServerStep, Read, Write, Shutdown, Complete, UpdateKey, Linked;
    if first {
      if p.a.seen < |p.b.out| { ReadLinks(p.a, p.b); }
      ClientFollows(gc, d.c, p.a, p.b, bc, x);
      OtherStays(p, x);
    } else {
      if p.b.seen < |p.a.out| { ReadLinks(p.b, p.a); }
      ServerFollows(gs, d.s, p.b, p.a, bs, x);
      OtherStays(Swap(p), x);
    }
  }

  lemma OtherStays(p: Pair, x: Step)
    requires !p.broken
    ensures StepA(p, x).b == p.b && StepA(p, x).a == StepA(Pair(p.a, p.b, false), x).a
  {
    hide Read, Write, Shutdown, Complete, UpdateKey;
  }

  /** Over any interleaving of what the users do: the machines stay with the parties, in runs of their own, and
      the next record for either side opens under the key it has installed. */
  lemma {:induction false} MachinesFollow(
    gc: C.Config, gs: S.Config, d: Duo, p: Pair, bc: seq<(Term, nat)>, bs: seq<(Term, nat)>, xs: seq<(Step, bool)>)
    requires Good(p) && Follows(d, p, bc, bs) && Clean(p, xs) && A.ClientReaches(gc, d.c) && A.ServerReaches(gs, d.s)
    ensures var e, q := DuoRun(gc, gs, d, p, xs), KeyUpdates.Run(p, xs);
            && Follows(e, q, bc, bs) && Good(q) && A.ClientReaches(gc, e.c) && A.ServerReaches(gs, e.s)
            && (q.a.seen < |q.b.out| ==> e.c.k.rec.readKey == Some(q.b.out[q.a.seen].key))
            && (q.b.seen < |q.a.out| ==> e.s.k.rec.readKey == Some(q.a.out[q.b.seen].key))
    decreases |xs|
  {
    hide Matches, ClientIs, ServerIs, ClientStep, ServerStep, StepOf, A.ClientReaches, A.ServerReaches, Good;
    EveryRecordOpens(p, xs);
    if xs != [] {
      var n := |xs| - 1;
      MachinesFollow(gc, gs, d, p, bc, bs, xs[..n]);
      EveryRecordOpens(p, xs[..n]);
      var e, q := DuoRun(gc, gs, d, p, xs[..n]), KeyUpdates.Run(p, xs[..n]);
      DuoKeeps(gc, gs, e, q, bc, bs, xs[n].0, xs[n].1);
      if xs[n].1 { ClientRuns(gc, e.c, q.a, NextOf(q.a, q.b), xs[n].0); }
      else { ServerRuns(gs, e.s, q.b, NextOf(q.b, q.a), xs[n].0); }
    }
    Installed(DuoRun(gc, gs, d, p, xs), KeyUpdates.Run(p, xs), bc, bs);
  }

  lemma Installed(e: Duo, q: Pair, bc: seq<(Term, nat)>, bs: seq<(Term, nat)>)
    requires Good(q) && Follows(e, q, bc, bs)
    ensures q.a.seen < |q.b.out| ==> e.c.k.rec.readKey == Some(q.b.out[q.a.seen].key)
    ensures q.b.seen < |q.a.out| ==> e.s.k.rec.readKey == Some(q.a.out[q.b.seen].key)
  {
    hide Uses, Queued, ClientIs, ServerIs;
    if q.a.seen < |q.b.out| { assert q.b.out[q.a.seen..][0] == q.b.out[q.a.seen]; }
    if q.b.seen < |q.a.out| { assert q.a.out[q.b.seen..][0] == q.a.out[q.b.seen]; }
  }

  // Where it starts

  /** The party that a machine with nothing pending is, when its peer has sealed `n` records under the
      current key. */
  function PartyOf(k: Core, n: nat): Party
    requires k.keys.schedule.Some? && ApplicationData in k.keys.enc && ApplicationData in k.keys.dec
  {
    var h := k.keys.schedule.value.hash;
    Party(Traffic(h, k.keys.enc[ApplicationData], k.rec.writeSeq), Traffic(h, k.keys.dec[ApplicationData], n), Idle,
          [], 0, false, false)
  }

  lemma ClientFinal(gc: C.Config, c: C.Client, n: nat)
    requires C.ConfigOk(gc) && C.Reachable(gc, c, n) && c.end.Running? && c.state.Done? && c.f.version13
    ensures c.k.io.outgoing == [] && c.k.keys.schedule.Some? && A.BothEpochs(c.k.keys) && Conserved(c.k.io)
    ensures c.k.keys.schedule.value.generation == 3 && CI.FinalRecords(c.k.keys, c.k.rec)
    ensures c.k.keys.dec[Handshake].Expand? && c.k.keys.schedule.value.hash == c.k.keys.dec[Handshake].hash
  {
    hide CI.Live, C.Reachable, NoncesOk, VerifyData, CI.OwnFinals, Conserved, Faithful, Ups, KeyTop, StartedFrom,
         AppSecret, Marked, Closed;
    CR.ReachableInv(gc, c, n);
    CI.LiveAt(gc, c);
  }

  lemma ServerFinal(gs: S.Config, s: S.Server, n: nat)
    requires S.Reachable(gs, s, n) && s.end.Running? && s.state.Done? && s.f.version13
    ensures s.k.io.outgoing == [] && s.k.keys.schedule.Some? && A.BothEpochs(s.k.keys) && Conserved(s.k.io)
    ensures s.k.keys.schedule.value.generation == 3
    ensures s.k.rec.writeKey == Some(s.k.keys.enc[ApplicationData])
    ensures s.k.rec.readKey == Some(s.k.keys.dec[ApplicationData])
    ensures s.k.keys.enc[Handshake].Expand? && s.k.keys.schedule.value.hash == s.k.keys.enc[Handshake].hash
  {
    hide SI.Live, S.Reachable, NoncesOk, VerifyData, SI.Logged, Ups, KeyTop, StartedFrom, AppSecret, Marked, SI.Origin,
         Finals, Conserved;
    SR.ReachableInv(gs, s, n);
    SI.LiveAt(gs, s);
    A.ServerConserved(gs, s, n);
  }

  /** All that was sent has been consumed. */
  lemma NothingWaits(mine: Io, peer: Io)
    requires Conserved(mine) && mine.fed <= Of(peer.wire, Sent) && Of(mine.wire, Received) == Of(peer.wire, Sent)
    ensures mine.cache.None? && mine.incoming == []
  {
    hide Of;
    assert |mine.fed| == |Of(mine.wire, Received)| + (if mine.cache.Some? then 1 else 0) + |mine.incoming|;
  }

  /** Two machines done, with nothing under way. */
  ghost predicate Quiet(gc: C.Config, gs: S.Config, c: C.Client, s: S.Server, n: nat)
  {
    && C.ConfigOk(gc) && A.Run(gc, gs, c, s, n)
    && c.end.Running? && c.state.Done? && c.f.version13 && s.end.Running? && s.state.Done?
    && Of(c.k.io.wire, Received) == Of(s.k.io.wire, Sent) && Of(s.k.io.wire, Received) == Of(c.k.io.wire, Sent)
  }

  /** They are parties in step. */
  lemma DoneFollows(gc: C.Config, gs: S.Config, c: C.Client, s: S.Server, n: nat)
    requires Quiet(gc, gs, c, s, n)
    ensures c.k.keys.schedule.Some? && s.k.keys.schedule.Some? && A.BothEpochs(c.k.keys) && A.BothEpochs(s.k.keys)
    ensures var p := Pair(PartyOf(c.k, s.k.rec.writeSeq), PartyOf(s.k, c.k.rec.writeSeq), false);
            Good(p) && Follows(Duo(c, s), p, c.k.rec.used, s.k.rec.used)
    ensures A.ClientReaches(gc, c) && A.ServerReaches(gs, s)
  {
    hide A.Run, Of, C.Reachable, S.Reachable, A.SameStart, AppSecret, Generation, Ups, KeyTop, Conserved;
    A.SecretsAgreeWhenDone(gc, gs, c, s, n);
    A.SecretsEqualWhenQuiet(gc, gs, c, s, n);
    A.RunReaches(gc, gs, c, s, n);
    var i: nat :| C.Reachable(gc, c, i);
    var j: nat :| S.Reachable(gs, s, j);
    ClientFinal(gc, c, i);
    ServerFinal(gs, s, j);
    NothingWaits(c.k.io, s.k.io);
    NothingWaits(s.k.io, c.k.io);
    assert c.k.keys.dec[Handshake] == s.k.keys.enc[Handshake];
    var a, b := PartyOf(c.k, s.k.rec.writeSeq), PartyOf(s.k, c.k.rec.writeSeq);
    assert a.out[b.seen..] == [] && b.out[a.seen..] == [];
    assert c.k.rec.used == c.k.rec.used + Uses([]) && s.k.rec.used == s.k.rec.used + Uses([]);
  }

  /** From there on, whatever the users write, read, update and close, as long as nobody closes over a waiting update:
      the machines are where the parties are, every record they seal is the party's, and the next record for
      either side opens under the key that this side has installed. */
  lemma RecordsOpen(gc: C.Config, gs: S.Config, c: C.Client, s: S.Server, n: nat, xs: seq<(Step, bool)>)
    requires Quiet(gc, gs, c, s, n)
    requires c.k.keys.schedule.Some? && s.k.keys.schedule.Some? && A.BothEpochs(c.k.keys) && A.BothEpochs(s.k.keys)
    requires Clean(Pair(PartyOf(c.k, s.k.rec.writeSeq), PartyOf(s.k, c.k.rec.writeSeq), false), xs)
    ensures var p := Pair(PartyOf(c.k, s.k.rec.writeSeq), PartyOf(s.k, c.k.rec.writeSeq), false);
            var e, q := DuoRun(gc, gs, Duo(c, s), p, xs), KeyUpdates.Run(p, xs);
            && Follows(e, q, c.k.rec.used, s.k.rec.used) && !q.broken
            && (q.a.seen < |q.b.out| ==> e.c.k.rec.readKey == Some(q.b.out[q.a.seen].key))
            && (q.b.seen < |q.a.out| ==> e.s.k.rec.readKey == Some(q.a.out[q.b.seen].key))
  {
    hide Quiet, Follows, Linked, A.ClientReaches, A.ServerReaches, Clean, KeyUpdates.Run, DuoRun;
    DoneFollows(gc, gs, c, s, n);
    var p := Pair(PartyOf(c.k, s.k.rec.writeSeq), PartyOf(s.k, c.k.rec.writeSeq), false);
    MachinesFollow(gc, gs, Duo(c, s), p, c.k.rec.used, s.k.rec.used, xs);
  }
}
