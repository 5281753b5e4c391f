/** What client and server handshakes share (src/simple_tls/tls/handshake.py,
    src/simple_tls/tls/utils.py) together with the record-layer state their callbacks drive
    (src/simple_tls/tls/connection.py). Cryptography is a free term algebra. */
module HandshakeCore {
  import opened Wire

  // Symbolic cryptography

  datatype Label =
    | ResBinder | ClientEarly | ClientHs | ServerHs | ClientAp | ServerAp | ResMaster
    | Finished | Derived | TrafficUpd | EchAccept | HrrEchAccept

  /** Secrets and digests: every function of the real stack is a constructor here. */
  datatype Term =
    | Zeros
    | NoBytes
    | Atom(id: nat)
    | Shared(low: nat, high: nat)
    | Extract(hash: nat, salt: Term, ikm: Term)
    | Expand(hash: nat, secret: Term, tag: Label, context: Term)
    | Digest(hash: nat, transcript: seq<Entry>)
    | Mac(hash: nat, key: Term, data: Term)

  /** A transcript element: a message, or the hash a HelloRetryRequest puts in place of all before it. */
  datatype Entry = Msg(m: Message) | MessageHash(hash: nat, was: seq<Entry>)

  /** What an encrypted inner hello has of its own; key shares are always compressed. */
  datatype Inner = Inner(random: nat, data: nat, ticket: Option<nat>)

  /** Handshake messages; `data` stands for the octets that no handler here looks into. Key shares
      are numbers by group: a public one has the number of the private one. The confirmation of
      ECH stands in `confirm`. */
  datatype Message =
    | ClientHello(random: nat, data: nat, shares: map<nat, nat>, ticket: Option<nat>, inner: Option<Inner>)
    | ServerHello(
        data: nat, hrr: bool, tls13: bool, hash: nat, psk: bool, share: Option<(nat, nat)>, confirm: Option<Term>)
    | EncryptedExtensions(data: nat, early: bool)
    | CertificateRequest(data: nat)
    | Certificate(data: nat)
    | CertificateVerify(data: nat)
    | FinishedMsg(verify: Term)
    | EndOfEarlyData
    | SessionTicket(data: nat)
    | KeyUpdate(requested: bool)
    | ServerKeyExchange(data: nat)
    | ServerHelloDone
    | ClientKeyExchange(data: nat)
    | CertificateStatus(data: nat)
    | NextProtocol(data: nat)
    | Unknown(data: nat)

  type Transcript = seq<Entry>

  // KeySchedule

  datatype Schedule = Schedule(hash: nat, generation: nat, secret: Term)

  function NewSchedule(hash: nat): Schedule { Schedule(hash, 0, Zeros) }

  /** KeySchedule.extract */
  function ExtractKey(s: Schedule, ikm: Option<Term>): (r: Schedule)
    ensures r.generation == s.generation + 1 && r.hash == s.hash
  {
    var salt := if s.generation != 0 then Expand(s.hash, s.secret, Derived, Digest(s.hash, [])) else s.secret;
    Schedule(s.hash, s.generation + 1, Extract(s.hash, salt, if ikm.Some? then ikm.value else Zeros))
  }

  /** KeySchedule.derive_secret */
  function DeriveSecret(s: Schedule, l: Label, t: Transcript): Term
  {
    Expand(s.hash, s.secret, l, Digest(s.hash, t))
  }

  /** KeySchedule.finished_verify_data */
  function VerifyData(hash: nat, secret: Term, t: Transcript): Term
  {
    Mac(hash, Expand(hash, secret, Finished, NoBytes), Digest(hash, t))
  }

  /** KeySchedule.upd_secret */
  function UpdSecret(hash: nat, secret: Term): Term { Expand(hash, secret, TrafficUpd, NoBytes) }

  /** The secret of the n-th generation. */
  function Generation(hash: nat, x: Term, n: nat): Term
  {
    if n == 0 then x else UpdSecret(hash, Generation(hash, x, n - 1))
  }

  /** Key exchange: the order of the two shares does not matter. */
  function Exchange(x: nat, y: nat): (t: Term)
  {
    if x <= y then Shared(x, y) else Shared(y, x)
  }

  /** KeySchedule.ech_accept_confirmation over a transcript and the hello with its place zeroed. */
  function Confirmation(random: nat, t: Transcript, m: Message): Term
    requires m.ServerHello?
  {
    Expand(m.hash, Extract(m.hash, NoBytes, Atom(random)), if m.hrr then HrrEchAccept else EchAccept,
           Digest(m.hash, t + [Msg(m.(confirm := None))]))
  }

  predicate Confirms(random: nat, t: Transcript, m: Message)
    requires m.ServerHello?
  {
    m.confirm == Some(Confirmation(random, t, m))
  }

  // State

  datatype Epoch = Initial | ZeroRtt | Handshake | ApplicationData

  datatype Status =
    | Ok | EarlyReturn | WriteChangeCipherSpec | ReadChangeCipherSpec | ReadEndOfEarlyData
    | ReadHandshake | PackFlight | FlushHandshake

  datatype Direction = Sent | Received

  datatype Tri = Undecided | Accepted | Rejected

  /** What was checked, in the order it was checked. */
  datatype Check = ChainVerified(host: nat) | SignatureVerified | FinishedVerified

  /** A run ends with an alert or with a failed assertion. */
  datatype End = Running | Alerted | Crashed

  /** History: the checks that passed, the transcript that the server's Finished covers, the one
      that the client's Finished covers, and how long the log was before either of them. */
  datatype History = History(checks: seq<Check>, at: Transcript, closed: Transcript, mark: nat, last: nat)

  datatype Event = Event(direction: Direction, m: Message)

  /** Handshake messages in and out. `fed` and `wire` record the run: all messages handed in,
      and all messages consumed or queued, in order. */
  datatype Io = Io(
    incoming: seq<Message>, partial: bool, cache: Option<Message>, outgoing: seq<Message>,
    fed: seq<Message>, wire: seq<Event>, transcript: Transcript)

  datatype Keys = Keys(schedule: Option<Schedule>, enc: map<Epoch, Term>, dec: map<Epoch, Term>)

  /** The record layer: installed keys, the nonces used so far, and two observations. `fault`
      is the assertion that nothing is pending when a write key is installed; `straddled`
      says that a read key was installed inside a message. */
  datatype Rec = Rec(
    writeKey: Option<Term>, writeSeq: nat, readKey: Option<Term>, used: seq<(Term, nat)>,
    fault: bool, straddled: bool)

  datatype Core = Core(io: Io, keys: Keys, rec: Rec)

  function NewCore(): Core
  {
    Core(Io([], false, None, [], [], [], []), Keys(None, map[], map[]), Rec(None, 0, None, [], false, false))
  }

  // The transcript as a function of what went over the wire

  /** Key updates and, in TLS 1.3, tickets are the only messages left out of the transcript. */
  predicate Hashed(m: Message, tls13: bool) { !(tls13 && m.SessionTicket?) && !m.KeyUpdate? }

  datatype View = View(tls13: bool, inner: bool)

  function Seen(m: Message, inner: bool): Message
  {
    if m.ClientHello? && inner && m.inner.Some?
    then ClientHello(m.inner.value.random, m.inner.value.data, m.shares, m.inner.value.ticket, None)
    else m
  }

  /** Transcript.update_for_hello_retry_request */
  function Retry(t: Transcript, hash: nat): Transcript { [MessageHash(hash, t)] }

  predicate IsRetry(m: Message) { m.ServerHello? && m.tls13 && m.hrr }

  function Absorb(t: Transcript, m: Message, v: View): Transcript
  {
    if !Hashed(m, v.tls13) then t
    else if IsRetry(m) then Retry(t, m.hash) + [Msg(m)]
    else t + [Msg(Seen(m, v.inner))]
  }

  /** Every hashed message once and in order; a HelloRetryRequest first folds all before it
      into a message hash. With `v.inner`, a hello that carries an encrypted one counts as that. */
  function TranscriptOf(w: seq<Event>, v: View): (t: Transcript)
  {
    if w == [] then [] else Absorb(TranscriptOf(w[..|w| - 1], v), w[|w| - 1].m, v)
  }

  function Of(w: seq<Event>, d: Direction): (r: seq<Message>)
  {
    if w == [] then [] else
    Of(w[..|w| - 1], d) + (if w[|w| - 1].direction == d then [w[|w| - 1].m] else [])
  }

  lemma WireSnoc(w: seq<Event>, e: Event)
    ensures forall v :: TranscriptOf(w + [e], v) == Absorb(TranscriptOf(w, v), e.m, v)
    ensures forall d :: Of(w + [e], d) == Of(w, d) + (if e.direction == d then [e.m] else [])
    ensures Retries(w + [e]) == Retries(w) + (if IsRetry(e.m) then 1 else 0)
    ensures Finals(w + [e]) == Finals(w) + (if e.direction.Sent? && e.m.FinishedMsg? then [e.m.verify] else [])
    ensures forall d :: Ups(w + [e], d) == Ups(w, d) + (if e.direction == d && e.m.KeyUpdate? then 1 else 0)
  {
    assert (w + [e])[..|w|] == w;
  }

  /** How many HelloRetryRequests went over the wire. */
  function Retries(w: seq<Event>): (n: nat)
  {
    if w == [] then 0 else Retries(w[..|w| - 1]) + (if IsRetry(w[|w| - 1].m) then 1 else 0)
  }

  /** The verify data of all Finished messages sent, in order. */
  function Finals(w: seq<Event>): (r: seq<Term>)
  {
    if w == [] then [] else
    var e := w[|w| - 1];
    Finals(w[..|w| - 1]) + (if e.direction.Sent? && e.m.FinishedMsg? then [e.m.verify] else [])
  }

  /** How many KeyUpdates went by in one direction. */
  function Ups(w: seq<Event>, d: Direction): (n: nat)
  {
    if w == [] then 0 else
    var e := w[|w| - 1];
    Ups(w[..|w| - 1], d) + (if e.direction == d && e.m.KeyUpdate? then 1 else 0)
  }

  /** No key was updated yet. */
  predicate NoUps(w: seq<Event>) { Ups(w, Sent) == 0 && Ups(w, Received) == 0 }

  /** All input is accounted for: consumed, then being looked at, then waiting. */
  predicate Conserved(io: Io)
  {
    io.fed == Of(io.wire, Received) + (if io.cache.Some? then [io.cache.value] else []) + io.incoming
  }

  /** Each hashed message is in the transcript exactly once and in wire order. */
  predicate Faithful(io: Io, v: View) { io.transcript == TranscriptOf(io.wire, v) }

  // Message input

  /** _read_handshake: the message being looked at, taken from the buffer if there is none. */
  function Peek(io: Io): (r: Io)
    ensures Unread(r) == Unread(io)
    ensures r.cache.None? ==> r == io
  {
    if io.cache.Some? || io.incoming == [] then io
    else io.(cache := Some(io.incoming[0]), incoming := io.incoming[1..])
  }

  function Unread(io: Io): (n: nat) { |io.incoming| + (if io.cache.Some? then 1 else 0) }

  /** has_unprocessed_data */
  predicate Unprocessed(io: Io) { io.incoming != [] || io.partial }

  /** Nothing is left to read, not even part of a message. */
  predicate Drained(io: Io) { io.cache.None? && !Unprocessed(io) }

  /** _next_handshake: `m` is what the cache holds, or what set_message put in its place; the log
      keeps what was received. */
  function Consume(io: Io, m: Message, updateHash: bool): (r: Io)
    requires io.cache.Some?
    ensures Unread(r) < Unread(io)
  {
    io.(cache := None, wire := io.wire + [Event(Received, io.cache.value)],
        transcript := if updateHash then io.transcript + [Msg(m)] else io.transcript)
  }

  /** Transcript.update_for_hello_retry_request, which the handlers call themselves. */
  function Rewrite(io: Io, hash: nat): Io { io.(transcript := Retry(io.transcript, hash)) }

  /** feed_data: whole messages now complete, and whether a cut-off one follows. */
  function Feed(io: Io, ms: seq<Message>, partial: bool): Io
  {
    io.(incoming := io.incoming + ms, fed := io.fed + ms, partial := partial)
  }

  /** _add_message */
  function Add(io: Io, m: Message, updateHash: bool): Io
  {
    io.(outgoing := io.outgoing + [m], wire := io.wire + [Event(Sent, m)],
        transcript := if updateHash then io.transcript + [Msg(m)] else io.transcript)
  }

  /** All input is accounted for, the transcript follows the wire, and so many HelloRetryRequests
      went by. */
  predicate Log(io: Io, v: View, retries: nat)
  {
    Conserved(io) && Faithful(io, v) && Retries(io.wire) == retries
  }

  lemma PeekLog(io: Io, v: View, n: nat)
    requires Log(io, v, n)
    ensures Log(Peek(io), v, n)
  {}

  lemma FeedLog(io: Io, ms: seq<Message>, partial: bool, v: View, n: nat)
    requires Log(io, v, n)
    ensures Log(Feed(io, ms, partial), v, n)
  {}

  /** The same between the rewrite of the transcript and the HelloRetryRequest that it is for. */
  predicate Rewritten(io: Io, v: View, retries: nat, hash: nat)
  {
    Conserved(io) && io.transcript == Retry(TranscriptOf(io.wire, v), hash) && Retries(io.wire) == retries
  }

  /** Consuming a message keeps the log if the caller hashes exactly what belongs in the transcript. */
  lemma ConsumeLog(io: Io, m: Message, updateHash: bool, v: View, n: nat)
    requires io.cache.Some? && Log(io, v, n) && !IsRetry(io.cache.value)
    requires updateHash == Hashed(io.cache.value, v.tls13) && m == Seen(io.cache.value, v.inner)
    ensures var w := Consume(io, m, updateHash).wire;
            && Log(Consume(io, m, updateHash), v, n) && Finals(w) == Finals(io.wire)
            && Ups(w, Sent) == Ups(io.wire, Sent)
            && Ups(w, Received) == Ups(io.wire, Received) + (if io.cache.value.KeyUpdate? then 1 else 0)
  {
    hide TranscriptOf, Of, Finals, Ups, Retries;
    WireSnoc(io.wire, Event(Received, io.cache.value));
  }

  /** A HelloRetryRequest is hashed behind the rewrite. */
  lemma RetryLog(io: Io, v: View, n: nat)
    requires io.cache.Some? && Log(io, v, n) && IsRetry(io.cache.value)
    ensures var r := Consume(Rewrite(io, io.cache.value.hash), io.cache.value, true);
            && Log(r, v, n + 1) && Finals(r.wire) == Finals(io.wire)
            && Ups(r.wire, Sent) == Ups(io.wire, Sent) && Ups(r.wire, Received) == Ups(io.wire, Received)
  {
    hide TranscriptOf, Of, Finals, Ups, Retries;
    WireSnoc(io.wire, Event(Received, io.cache.value));
  }

  lemma AddLog(io: Io, m: Message, updateHash: bool, v: View, n: nat)
    requires Log(io, v, n) && !IsRetry(m) && updateHash == Hashed(m, v.tls13) && (m.ClientHello? ==> !v.inner)
    ensures var w := Add(io, m, updateHash).wire;
            && Log(Add(io, m, updateHash), v, n)
            && Finals(w) == Finals(io.wire) + (if m.FinishedMsg? then [m.verify] else [])
            && Ups(w, Sent) == Ups(io.wire, Sent) + (if m.KeyUpdate? then 1 else 0)
            && Ups(w, Received) == Ups(io.wire, Received)
  {
    hide TranscriptOf, Of, Finals, Ups, Retries;
    WireSnoc(io.wire, Event(Sent, m));
  }

  /** The request itself, sent one handler after the rewrite. */
  lemma AddRetryLog(io: Io, m: Message, v: View, n: nat)
    requires IsRetry(m) && Rewritten(io, v, n, m.hash)
    ensures var w := Add(io, m, true).wire;
            && Log(Add(io, m, true), v, n + 1) && Finals(w) == Finals(io.wire)
            && Ups(w, Sent) == Ups(io.wire, Sent) && Ups(w, Received) == Ups(io.wire, Received)
  {
    hide TranscriptOf, Of, Finals, Ups, Retries;
    WireSnoc(io.wire, Event(Sent, m));
  }

  // Shapes of the log up to the server's Finished; `mine` is the direction of the hellos

  function OpeningLength(retried: bool): nat { if retried then 3 else 1 }

  predicate Hello(e: Event, mine: Direction) { e.direction == mine && e.m.ClientHello? }

  /** A hello and the request for another one. */
  predicate AskedAgain(w: seq<Event>, mine: Direction)
  {
    |w| == 2 && Hello(w[0], mine) && w[1].direction != mine && IsRetry(w[1].m)
  }

  predicate Flown(e: Event, mine: Direction) { e.direction != mine && !e.m.FinishedMsg? && !IsRetry(e.m) }

  /** One or two hellos, then messages of the server other than its Finished. */
  predicate ServerFlight(w: seq<Event>, retried: bool, mine: Direction)
  {
    && |w| >= OpeningLength(retried) && Hello(w[0], mine)
    && (retried ==> AskedAgain(w[..2], mine) && Hello(w[2], mine))
    && forall i :: OpeningLength(retried) <= i < |w| ==> Flown(w[i], mine)
  }

  predicate HellosOnly(w: seq<Event>, retried: bool, mine: Direction)
  {
    ServerFlight(w, retried, mine) && |w| == OpeningLength(retried)
  }

  lemma FlightMore(w: seq<Event>, retried: bool, mine: Direction, e: Event)
    requires ServerFlight(w, retried, mine) && Flown(e, mine)
    ensures ServerFlight(w + [e], retried, mine)
  {
    if retried { assert (w + [e])[..2] == w[..2]; }
  }

  lemma HellosMore(w: seq<Event>, mine: Direction, e: Event)
    requires AskedAgain(w, mine) && Hello(e, mine)
    ensures HellosOnly(w + [e], true, mine)
  {
    assert (w + [e])[..2] == w;
  }

  /** The key shares the server may take: those of the second hello if it asked for others. */
  function Offered(w: seq<Event>, retried: bool): map<nat, nat>
    requires |w| >= OpeningLength(retried) && w[0].m.ClientHello?
    requires retried ==> w[1].m.ServerHello? && w[2].m.ClientHello?
  {
    if retried && w[1].m.share.Some? then w[2].m.shares else w[0].m.shares
  }

  /** The key exchange that a log amounts to. */
  function Ikm(w: seq<Event>, retried: bool): Term
    requires |w| > OpeningLength(retried) && w[0].m.ClientHello? && w[OpeningLength(retried)].m.ServerHello?
    requires retried ==> w[1].m.ServerHello? && w[2].m.ClientHello?
  {
    match w[OpeningLength(retried)].m.share
    case None => Zeros
    case Some((group, y)) =>
      if group in Offered(w, retried) then Exchange(Offered(w, retried)[group], y) else Zeros
  }

  /** The HelloRetryRequest of a log confirms the inner hello. */
  predicate RetryConfirmed(w: seq<Event>)
    requires |w| >= 2 && w[0].m.ClientHello? && w[1].m.ServerHello?
  {
    w[0].m.inner.Some?
    && Confirms(w[0].m.inner.value.random, Retry(TranscriptOf(w[..1], View(true, true)), w[1].m.hash), w[1].m)
  }

  /** So does the ServerHello. */
  predicate HelloConfirmed(w: seq<Event>, n: nat)
    requires n < |w| && w[0].m.ClientHello? && w[n].m.ServerHello?
  {
    w[0].m.inner.Some? && Confirms(w[0].m.inner.value.random, TranscriptOf(w[..n], View(true, true)), w[n].m)
  }

  /** ECH is on: every hello of the server confirmed it. */
  predicate Confirmed(w: seq<Event>, retried: bool)
    requires |w| > OpeningLength(retried) && w[0].m.ClientHello? && w[OpeningLength(retried)].m.ServerHello?
    requires retried ==> w[1].m.ServerHello?
  {
    (retried ==> RetryConfirmed(w)) && HelloConfirmed(w, OpeningLength(retried))
  }

  /** What the hellos say about the handshake secret `hs` derived right after them, about ECH and
      about resumption. */
  predicate Settled(w: seq<Event>, retried: bool, hs: Term, v: View, reused: bool)
    requires |w| == OpeningLength(retried) + 1 && w[0].m.ClientHello? && w[OpeningLength(retried)].m.ServerHello?
    requires retried ==> w[1].m.ServerHello? && w[2].m.ClientHello?
  {
    var m := w[OpeningLength(retried)].m;
    && hs.Expand? && m.hash == hs.hash && hs.context == Digest(hs.hash, TranscriptOf(w, v))
    && hs.secret.Extract? && hs.secret.ikm == Ikm(w, retried)
    && (v.inner <==> Confirmed(w, retried)) && m.psk == reused && (retried || m.tls13)
  }

  /** The server's flight has begun, and its hello settled this. */
  predicate Answering(w: seq<Event>, retried: bool, mine: Direction, hs: Term, v: View, reused: bool)
  {
    var n := OpeningLength(retried);
    && ServerFlight(w, retried, mine) && |w| > n && w[n].m.ServerHello? && TypesOk(w, retried)
    && Settled(w[..n + 1], retried, hs, v, reused)
  }

  predicate TypesOk(w: seq<Event>, retried: bool)
    requires |w| >= OpeningLength(retried)
  {
    w[0].m.ClientHello? && (retried ==> w[1].m.ServerHello? && w[2].m.ClientHello?)
  }

  lemma FlightTypes(w: seq<Event>, retried: bool, mine: Direction)
    requires ServerFlight(w, retried, mine)
    ensures TypesOk(w, retried)
  {
    if retried { assert w[..2][1] == w[1]; }
  }

  lemma AnsweringMore(w: seq<Event>, retried: bool, mine: Direction, hs: Term, v: View, reused: bool, e: Event)
    requires Answering(w, retried, mine, hs, v, reused) && Flown(e, mine)
    ensures Answering(w + [e], retried, mine, hs, v, reused)
  {
    hide ServerFlight, Settled;
    var n := OpeningLength(retried);
    FlightMore(w, retried, mine, e);
    assert (w + [e])[..n + 1] == w[..n + 1];
  }

  lemma AnsweringStart(w: seq<Event>, retried: bool, mine: Direction, hs: Term, v: View, reused: bool, e: Event)
    requires HellosOnly(w, retried, mine) && Flown(e, mine) && e.m.ServerHello? && TypesOk(w, retried)
    requires Settled(w + [e], retried, hs, v, reused)
    ensures Answering(w + [e], retried, mine, hs, v, reused)
  {
    hide ServerFlight, Settled;
    FlightMore(w, retried, mine, e);
    assert (w + [e])[..OpeningLength(retried) + 1] == w + [e];
  }

  /** The log from its beginning through the server's Finished. */
  predicate Marked(
    w: seq<Event>, mark: nat, at: Transcript, retried: bool, mine: Direction, hs: Term, v: View, reused: bool)
  {
    && mark < |w| && Answering(w[..mark], retried, mine, hs, v, reused) && hs.Expand?
    && w[mark].direction != mine && w[mark].m == FinishedMsg(VerifyData(hs.hash, hs, at))
    && at == TranscriptOf(w[..mark], v)
  }

  lemma MarkedMore(
    w: seq<Event>, mark: nat, at: Transcript, retried: bool, mine: Direction, hs: Term, v: View, reused: bool, e: Event)
    requires Marked(w, mark, at, retried, mine, hs, v, reused)
    ensures Marked(w + [e], mark, at, retried, mine, hs, v, reused)
  {
    hide Answering, TranscriptOf, VerifyData;
    assert (w + [e])[..mark] == w[..mark];
  }

  lemma MarkedStart(
    w: seq<Event>, mark: nat, at: Transcript, retried: bool, mine: Direction, hs: Term, v: View, reused: bool, e: Event)
    requires Answering(w, retried, mine, hs, v, reused) && mark == |w| && at == TranscriptOf(w, v)
    requires e.direction != mine && hs.Expand? && e.m == FinishedMsg(VerifyData(hs.hash, hs, at))
    ensures Marked(w + [e], mark, at, retried, mine, hs, v, reused)
  {
    hide Answering, TranscriptOf, VerifyData;
    assert (w + [e])[..mark] == w;
  }

  /** After the server's Finished only the client speaks, and has not finished. */
  predicate Replied(w: seq<Event>, mark: nat, mine: Direction)
  {
    forall i :: mark < i < |w| ==> w[i].direction == mine && !w[i].m.FinishedMsg?
  }

  lemma RepliedMore(w: seq<Event>, mark: nat, mine: Direction, e: Event)
    requires Replied(w, mark, mine) && e.direction == mine && !e.m.FinishedMsg?
    ensures Replied(w + [e], mark, mine)
  {}

  /** The client's Finished is where its own log says, over the transcript up to there. */
  predicate Closed(w: seq<Event>, mark: nat, last: nat, closed: Transcript, hs: Term, v: View)
  {
    && mark < last < |w| && Replied(w[..last], mark, Sent) && hs.Expand?
    && w[last] == Event(Sent, FinishedMsg(VerifyData(hs.hash, hs, closed))) && closed == TranscriptOf(w[..last], v)
  }

  /** A longer log has the same beginning. */
  lemma ClosedMore(w: seq<Event>, mark: nat, last: nat, closed: Transcript, hs: Term, v: View, u: seq<Event>)
    requires Closed(w, mark, last, closed, hs, v) && w <= u
    ensures Closed(u, mark, last, closed, hs, v)
  {
    hide TranscriptOf, VerifyData, Replied;
    assert u[..last] == w[..last];
  }

  lemma MarkedLonger(
    w: seq<Event>, mark: nat, at: Transcript, retried: bool, mine: Direction, hs: Term, v: View, reused: bool,
    u: seq<Event>)
    requires Marked(w, mark, at, retried, mine, hs, v, reused) && w <= u
    ensures Marked(u, mark, at, retried, mine, hs, v, reused)
  {
    hide Answering, TranscriptOf, VerifyData;
    assert u[..mark] == w[..mark];
  }

  // Shapes of secrets

  /** Both handshake secrets come from one schedule and one transcript. */
  predicate HandshakeShape(s: Schedule, client: Term, server: Term)
  {
    server.Expand? && server.tag == ServerHs && server.hash == s.hash && server.context.Digest?
      && client == server.(tag := ClientHs)
  }

  /** The application secret `l` that follows from the server's handshake secret `hs` and the
      transcript `at` its Finished message covers. */
  function AppSecret(hs: Term, l: Label, at: Transcript): Term
    requires hs.Expand?
  {
    DeriveSecret(ExtractKey(Schedule(hs.hash, 2, hs.secret), None), l,
                 at + [Msg(FinishedMsg(VerifyData(hs.hash, hs, at)))])
  }

  /** The handshake secret's schedule started from this pre-shared key, or from none. */
  predicate StartedFrom(hs: Term, base: Option<Schedule>)
    requires hs.Expand?
  {
    var b := if base.Some? then base.value else ExtractKey(NewSchedule(hs.hash), None);
    hs.secret.Extract? && hs.secret == ExtractKey(b, Some(hs.secret.ikm)).secret && b.hash == hs.hash
      && b.generation == 1
  }

  // Records

  /** Keys in the order a connection can install them. */
  function KeyRank(t: Term): (r: nat)
  {
    if !t.Expand? then 0
    else match t.tag
      case ClientEarly => 1
      case ClientHs => 2
      case ServerHs => 2
      case ClientAp => 3
      case ServerAp => 3
      case TrafficUpd => 1 + KeyRank(t.secret)
      case _ => 0
  }

  lemma {:induction false} GenerationRank(hash: nat, x: Term, n: nat)
    ensures KeyRank(Generation(hash, x, n)) == KeyRank(x) + n
    ensures Generation(hash, x, n).Expand? <==> n > 0 || x.Expand?
    ensures n > 0 ==> Generation(hash, x, n).tag == TrafficUpd
  {
    if n > 0 { GenerationRank(hash, x, n - 1); }
  }

  /** No nonce was used twice, and the current key has only used numbers below the next one. */
  predicate NoncesOk(r: Rec)
  {
    && (forall i, j :: 0 <= i < j < |r.used| ==> r.used[i] != r.used[j])
    && (forall i :: 0 <= i < |r.used| && r.writeKey == Some(r.used[i].0) ==> r.used[i].1 < r.writeSeq)
  }

  /** Every key used so far has at most this rank. */
  predicate RankedBy(r: Rec, top: int) { forall i :: 0 <= i < |r.used| ==> KeyRank(r.used[i].0) <= top }

  predicate KeyTop(r: Rec, top: int) { RankedBy(r, top) && (r.writeKey.Some? ==> KeyRank(r.writeKey.value) <= top) }

  /** One record under the current write key: its nonce is the (key, sequence number) pair. */
  function Seal(r: Rec): (s: Rec)
    ensures Sealed(r, s)
  {
    if r.writeKey.None? then r
    else r.(used := r.used + [(r.writeKey.value, r.writeSeq)], writeSeq := r.writeSeq + 1)
  }

  /** What sealing records under one key keeps. */
  ghost predicate Sealed(r: Rec, s: Rec)
  {
    && s == r.(used := s.used, writeSeq := s.writeSeq)
    && (r.writeKey.None? ==> s == r)
    && (NoncesOk(r) ==> NoncesOk(s))
    && (forall top :: KeyTop(r, top) ==> KeyTop(s, top))
  }

  function SealMany(r: Rec, n: nat): (s: Rec)
    ensures Sealed(r, s)
    decreases n
  {
    if n == 0 then r else SealMany(Seal(r), n - 1)
  }

  /** _pack_handshake: the pending messages leave in `1 + extra` records. */
  function Pack(k: Core, extra: nat): (r: Core)
    ensures r.io == k.io.(outgoing := []) && r.keys == k.keys && Sealed(k.rec, r.rec)
  {
    if k.io.outgoing == [] then k else k.(io := k.io.(outgoing := []), rec := SealMany(k.rec, 1 + extra))
  }

  // Key installation

  /** setup_traffic_cb for writing. */
  function InstallWrite(k: Core, key: Option<Term>): (r: Core)
  {
    k.(rec := k.rec.(writeKey := key, writeSeq := 0, fault := k.rec.fault || k.io.outgoing != []))
  }

  /** A key of a higher rank than all before it has not been used. */
  lemma InstallNonces(k: Core, key: Option<Term>)
    requires NoncesOk(k.rec) && (key.None? || RankedBy(k.rec, KeyRank(key.value) - 1))
    ensures NoncesOk(InstallWrite(k, key).rec)
  {}

  /** setup_traffic_cb for reading. */
  function InstallRead(k: Core, key: Option<Term>): (r: Core)
  {
    k.(rec := k.rec.(readKey := key, straddled := k.rec.straddled || !Drained(k.io)))
  }

  lemma ReadNonces(k: Core, key: Option<Term>)
    requires NoncesOk(k.rec)
    ensures NoncesOk(InstallRead(k, key).rec)
  {}

  function Lookup(m: map<Epoch, Term>, e: Epoch): Option<Term> { if e in m then Some(m[e]) else None }

  function SetupWrite(k: Core, e: Epoch): (r: Core) { InstallWrite(k, Lookup(k.keys.enc, e)) }

  function SetupRead(k: Core, e: Epoch): (r: Core) { InstallRead(k, Lookup(k.keys.dec, e)) }

  /** _derive_upd_secret_tls13 for each direction. */
  function UpdateWrite(k: Core): (r: Core)
    requires k.keys.schedule.Some? && ApplicationData in k.keys.enc
    ensures r.io == k.io
  {
    var next := UpdSecret(k.keys.schedule.value.hash, k.keys.enc[ApplicationData]);
    SetupWrite(k.(keys := k.keys.(enc := k.keys.enc[ApplicationData := next])), ApplicationData)
  }

  function UpdateRead(k: Core): (r: Core)
    requires k.keys.schedule.Some? && ApplicationData in k.keys.dec
    ensures r.io == k.io
  {
    var next := UpdSecret(k.keys.schedule.value.hash, k.keys.dec[ApplicationData]);
    SetupRead(k.(keys := k.keys.(dec := k.keys.dec[ApplicationData := next])), ApplicationData)
  }

  /** _write_key_update: a KeyUpdate is never hashed. */
  function WriteKeyUpdate(k: Core, requested: bool): Core { k.(io := Add(k.io, KeyUpdate(requested), false)) }

  /** The status that the connection acts upon before it calls the handshake again. */
  function Act(k: Core, st: Status, extra: nat): (r: Core)
  {
    if st == PackFlight || st == FlushHandshake then Pack(k, extra) else k
  }

  /** _send_alert: what is pending goes first, then the alert record. */
  function SendAlert(k: Core, extra: nat): (r: Core)
    ensures r.io == k.io.(outgoing := []) && r.keys == k.keys && Sealed(k.rec, r.rec)
  {
    var p := Pack(k, extra);
    p.(rec := Seal(p.rec))
  }
}
