/** TLSConnection.do_handshake around the client's handshake: act on the status, read what it asks
    for, call the handshake again. */
module ClientConnection {
  import opened Wire
  import opened HandshakeCore
  import opened ClientMachine
  import opened ClientInv
  import opened ClientProofs
  import opened ClientRuns
  import opened ClientTheorems

  /** A record that can be opened now: handshake data, a change_cipher_spec, or any other. */
  datatype Input = Data(ms: seq<Message>, partial: bool) | Ccs | Else

  datatype Outcome = Complete | EarlyReturned | WantRead | Failed

  class Connection {
    var c: Client

    constructor ()
      ensures c == NewClient()
    {
      c := NewClient();
    }

    /** do_handshake. The loop ends: every turn uses up a record, lowers the rank or unread
        messages, or goes on to wait. Its two assertions hold: a handshake without a status is
        done, and neither that nor an early return happens with ECH rejected. */
    method DoHandshake(g: Config, os: nat -> Oracle, inputs: seq<Input>) returns (r: Outcome, used: nat)
      requires ConfigOk(g) && At(g, c)
      modifies this
      ensures used <= |inputs| && Inv(g, c)
      ensures r.Complete? ==> c.end.Running? && c.state.Done? && c.f.ech != Rejected
      ensures r.EarlyReturned? ==> c.end.Running? && c.status == Ok && c.f.ech != Rejected
      ensures r.WantRead? ==> c.end.Running? && used == |inputs|
      ensures r.WantRead? ==> c.status == ReadHandshake || c.status == ReadChangeCipherSpec
      ensures r.Failed? <==> !c.end.Running?
    {
      hide At, Inv, HandlerInv, Step, Settle, Descends, Live;
      used := 0;
      var i := 0;
      AtRuns(g, c);
      while true
        invariant used <= |inputs| && At(g, c) && c.end.Running?
        decreases |inputs| - used, Rank(c.state, c.f.reused), Unread(c.k.io), if c.status == ReadHandshake then 0 else 1
      {
        if c.status == EarlyReturn {
          EarlyNotRejected(g, c);
          c := c.(status := Ok);
          return EarlyReturned, used;
        }
        if c.status == ReadHandshake || c.status == ReadChangeCipherSpec {
          if used == |inputs| { AtInv(g, c); return WantRead, used; }
          var x := inputs[used];
          used := used + 1;
          if x.Ccs? && c.f.version13 {
            // skipped
          } else if x.Data? && c.status == ReadHandshake {
            ApplyKeeps(g, c, Deliver(x.ms, x.partial));
            c := Apply(g, c, Deliver(x.ms, x.partial));
            Again(g, c);
          } else if x.Ccs? && c.status == ReadChangeCipherSpec {
            ApplyKeeps(g, c, DeliverCcs);
            c := Apply(g, c, DeliverCcs);
            Again(g, c);
          } else {
            Refused(g, c);
            c := c.(end := Alerted, k := SendAlert(c.k, 0));
            return Failed, used;
          }
        } else if c.state.Done? {
          DoneNotRejected(g, c);
          return Complete, used;
        } else {
          TurnFacts(g, c, os(i));
          ghost var b := c;
          c := Turn(g, c, os(i));
          i := i + 1;
          if !c.end.Running? { return Failed, used; }
          Again(g, c);
          TurnDown(g, b, c);
        }
      }
    }
  }

  lemma AtRuns(g: Config, c: Client)
    requires At(g, c)
    ensures c.end.Running?
  {}

  lemma AtInv(g: Config, c: Client)
    requires At(g, c)
    ensures Inv(g, c)
  {}

  lemma Again(g: Config, c: Client)
    requires ConfigOk(g) && Inv(g, c) && c.end.Running?
    ensures At(g, c)
  {}

  lemma Refused(g: Config, c: Client)
    requires At(g, c)
    ensures Inv(g, c.(end := Alerted, k := SendAlert(c.k, 0)))
  {
    hide Live, Log, NoncesOk;
    FailKeeps(g, c);
    AlertKeeps(g, Fail(c), 0);
  }

  lemma EarlyNotRejected(g: Config, c: Client)
    requires At(g, c) && c.status == EarlyReturn
    ensures c.f.ech != Rejected && Inv(g, c.(status := Ok))
  {
    hide Live, Log, NoncesOk;
    LiveAt(g, c);
    StatusLive(g, c, Ok);
    assert Go(c, c.state, Ok) == c.(status := Ok);
  }

  lemma DoneNotRejected(g: Config, c: Client)
    requires At(g, c) && c.state.Done?
    ensures c.f.ech != Rejected && Inv(g, c)
  {
    hide Live, Log, NoncesOk;
    LiveAt(g, c);
  }

  lemma TurnFacts(g: Config, c: Client, o: Oracle)
    requires At(g, c) && !c.state.Done?
    ensures HasHandler(c.state) && Inv(g, Turn(g, c, o)) && Descends(c, Turn(g, c, o))
  {
    hide At, Inv, HandlerInv, Step, Descends, Settle;
    Started(g, c);
    StepKeeps(g, c, o);
    StartsOnce(g, c, o);
    SettleKeeps(g, Step(g, c, o), o.records);
    SettleDescends(c, Step(g, c, o), o.records);
  }

  lemma SettleDescends(c: Client, d: Client, records: nat)
    requires Descends(c, d)
    ensures Descends(c, Settle(d, records))
  {
    hide Rank, Pack, SendAlert;
  }

  lemma TurnDown(g: Config, b: Client, c: Client)
    requires Descends(b, c) && c.end.Running?
    ensures Rank(c.state, c.f.reused) < Rank(b.state, b.f.reused)
            || (&& Rank(c.state, c.f.reused) == Rank(b.state, b.f.reused)
                && (Unread(c.k.io) < Unread(b.k.io) || (Unread(c.k.io) == Unread(b.k.io) && c.status == ReadHandshake)))
  {
    hide Unread;
  }
}
