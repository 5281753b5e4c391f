/** What the server guarantees against arbitrary peers, over all runs. */
module ServerTheorems {
  import opened Wire
  import opened HandshakeCore
  import opened ServerMachine
  import opened ServerInv
  import opened ServerRuns

  /** A TLS 1.3 server is done only after the client's Finished was checked; if it asked for a
      certificate and requires one, chain and CertificateVerify were checked before that. */
  lemma AuthenticatedWhenDone(g: Config, c: Server, n: nat)
    requires Reachable(g, c, n) && c.end.Running? && c.state.Done? && c.f.version13
    ensures c.h.checks == (if c.x.hasCert then [ChainVerified(0), SignatureVerified] else []) + [FinishedVerified]
    ensures g.auth.Required? && !c.f.reused ==> c.x.hasCert
    ensures c.f.reused <==> c.psk.Some?
  {
    hide Live, Log, NoncesOk, Accepts, Finishes, Reachable, AppKeys, AppRecords;
    ReachableInv(g, c, n);
    LiveAt(g, c);
  }

  /** Every message handed in is in the log of consumed messages, is being looked at or waits;
      every hashed message is in the transcript once and in wire order (which is already rewritten
      when a HelloRetryRequest is the next message); at most one HelloRetryRequest is sent. */
  lemma MessagesCountedOnce(g: Config, c: Server, n: nat)
    requires Reachable(g, c, n)
    ensures c.k.io.fed == Of(c.k.io.wire, Received)
                          + (if c.k.io.cache.Some? then [c.k.io.cache.value] else []) + c.k.io.incoming
    ensures !c.state.SendHelloRetryRequest13? ==> c.k.io.transcript == TranscriptOf(c.k.io.wire, ViewOf(c))
    ensures c.state.SendHelloRetryRequest13? ==>
              c.k.keys.schedule.Some?
              && c.k.io.transcript == Retry(TranscriptOf(c.k.io.wire, ViewOf(c)), c.k.keys.schedule.value.hash)
    ensures Retries(c.k.io.wire) <= 1
  {
    hide Live, NoncesOk, Reachable;
    ReachableInv(g, c, n);
  }

  /** No write key is installed over pending messages, in TLS 1.3 no read key is installed
      inside or before an unread message, and no assertion fails. */
  lemma KeysChangeAtBoundaries(g: Config, c: Server, n: nat)
    requires Reachable(g, c, n)
    ensures !c.k.rec.fault && (c.f.version13 ==> !c.k.rec.straddled) && !c.end.Crashed?
  {
    hide Live, Log, NoncesOk, Reachable;
    ReachableInv(g, c, n);
  }

  /** No two records are sealed with the same key and sequence number. */
  lemma NoncesNeverRepeat(g: Config, c: Server, n: nat, i: nat, j: nat)
    requires Reachable(g, c, n) && i < j < |c.k.rec.used|
    ensures c.k.rec.used[i] != c.k.rec.used[j]
  {
    hide Live, Log, Reachable;
    ReachableInv(g, c, n);
  }

  ghost function Iterate(g: Config, c: Server, os: nat -> Oracle, n: nat): Server
  {
    if n == 0 then c else
    var b := Iterate(g, c, os, n - 1);
    if HasHandler(b.state) then Step(g, b, os(n - 1)) else b
  }

  /** The handshake object as the connection sees it. */
  class Handshake {
    var c: Server

    constructor ()
      ensures c == NewServer()
    {
      c := NewServer();
    }

    /** TLSHandshake.do_handshake: dispatch until done or until a handler returns a status that
        the connection must act upon. The rank and then the unread messages go down. */
    method DoHandshake(g: Config, os: nat -> Oracle) returns (ghost n: nat)
      requires At(g, c)
      modifies this
      ensures c == Iterate(g, old(c), os, n)
      ensures HandlerInv(g, c)
      ensures !c.end.Running? || c.state.Done? || (n > 0 && c.status != Ok)
    {
      hide At, Inv, HandlerInv, Step, Descends;
      var i := 0;
      n := 0;
      Started(g, c);
      while !c.state.Done?
        invariant i == n && c == Iterate(g, old(c), os, n)
        invariant At(g, c) && HandlerInv(g, c)
        decreases Rank(c.state, c.f.reused), Unread(c.k.io)
      {
        StepKeeps(g, c, os(i));
        ghost var b := c;
        c := Step(g, c, os(i));
        i, n := i + 1, n + 1;
        if !c.end.Running? || c.status != Ok { return; }
        Progress(g, b, c);
      }
    }
  }

  lemma Started(g: Config, c: Server)
    requires At(g, c)
    ensures HandlerInv(g, c)
  {}

  lemma Progress(g: Config, b: Server, c: Server)
    requires HandlerInv(g, c) && Descends(b, c) && c.end.Running? && c.status == Ok
    ensures At(g, c)
    ensures Rank(c.state, c.f.reused) < Rank(b.state, b.f.reused)
            || (Rank(c.state, c.f.reused) == Rank(b.state, b.f.reused) && Unread(c.k.io) < Unread(b.k.io))
  {
    hide Live, Log, NoncesOk, Unread;
  }
}
