/** Key updates on an established TLS 1.3 connection: two parties that write, read, update keys
    and close in any order, over a FIFO channel in each direction
    (src/simple_tls/tls/connection.py, the post-handshake states of both handshakes). */
module KeyUpdates {
  import opened Wire
  import opened HandshakeCore

  datatype Content = AppData(id: nat) | UpdateMsg(requested: bool) | CloseNotify

  /** A protected record with the key and sequence number it was sealed with. */
  datatype Record = Record(key: Term, seq_: nat, content: Content)

  /** A direction of traffic: the current secret and the next sequence number. */
  datatype Traffic = Traffic(hash: nat, secret: Term, next: nat)

  /** The state between update_key() and the next do_handshake(): `queued` is the KeyUpdate
      that waits in the handshake's list of outgoing messages. */
  datatype Updating = Idle | Waiting(queued: Option<bool>)

  /** `out` is everything this party ever sealed, `seen` how many records of the peer it opened;
      `closed` and `eof` say that it sent or read a close_notify. */
  datatype Party = Party(
    write: Traffic, read: Traffic, updating: Updating, out: seq<Record>, seen: nat, closed: bool, eof: bool)

  // One party

  function Rekey(t: Traffic): Traffic { Traffic(t.hash, UpdSecret(t.hash, t.secret), 0) }

  /** _seal_record */
  function Emit(p: Party, c: Content): Party
  {
    p.(out := p.out + [Record(p.write.secret, p.write.next, c)], write := p.write.(next := p.write.next + 1))
  }

  /** _flush_handshake: a waiting KeyUpdate leaves under the current key. */
  function Flush(p: Party): Party
  {
    if p.updating.Waiting? && p.updating.queued.Some?
    then Emit(p, UpdateMsg(p.updating.queued.value)).(updating := Waiting(None))
    else p
  }

  /** do_handshake through PROCESS_UPDATE_TRAFFIC and COMPLETE_UPDATE_TRAFFIC. */
  function Complete(p: Party): Party
  {
    if p.updating.Idle? then p
    else var q := Flush(p); q.(write := Rekey(q.write), updating := Idle)
  }

  /** update_key, refused while another one is in progress. */
  function UpdateKey(p: Party, requested: bool): Party
  {
    if p.updating.Waiting? then p else p.(updating := Waiting(Some(requested)))
  }

  /** write: a handshake that is not done is completed first. */
  function Write(p: Party, id: nat): Party
  {
    if p.closed then p else Emit(Complete(p), AppData(id))
  }

  /** shutdown: the alert is written without completing the handshake. */
  function Shutdown(p: Party): Party
  {
    if p.closed then p else Emit(Flush(p), CloseNotify).(closed := true)
  }

  predicate Opens(t: Traffic, r: Record) { r.key == t.secret && r.seq_ == t.next }

  /** What reading a record does to the reading direction. */
  function After(t: Traffic, r: Record): Traffic
  {
    if r.content.UpdateMsg? then Rekey(t) else t.(next := t.next + 1)
  }

  /** read on the peer's next record; a requested update is answered at once. */
  function Read(p: Party, r: Record): Option<Party>
  {
    var q := Complete(p);
    if !Opens(q.read, r) then None else
    var o := q.(read := After(q.read, r), seen := q.seen + 1, eof := r.content.CloseNotify?);
    Some(if r.content == UpdateMsg(true) then Complete(UpdateKey(o, false)) else o)
  }

  // Both parties

  datatype Pair = Pair(a: Party, b: Party, broken: bool)

  datatype Step = DoWrite(id: nat) | DoUpdate(requested: bool) | DoShutdown | DoHandshake | DoRead

  /** A step of the first party; a record that does not open breaks the connection. */
  function StepA(s: Pair, x: Step): Pair
  {
    match x
    case DoWrite(id) => s.(a := Write(s.a, id))
    case DoUpdate(r) => s.(a := UpdateKey(s.a, r))
    case DoShutdown => s.(a := Shutdown(s.a))
    case DoHandshake => s.(a := Complete(s.a))
    case DoRead =>
      if s.a.eof || s.a.seen >= |s.b.out| then s else
      match Read(s.a, s.b.out[s.a.seen])
      case None => s.(broken := true)
      case Some(p) => s.(a := p)
  }

  function Swap(s: Pair): Pair { Pair(s.b, s.a, s.broken) }

  function StepOf(s: Pair, x: Step, first: bool): Pair
  {
    if first then StepA(s, x) else Swap(StepA(Swap(s), x))
  }

  function Fresh(hash: nat, out: Term, in_: Term): Party
  {
    Party(Traffic(hash, out, 0), Traffic(hash, in_, 0), Idle, [], 0, false, false)
  }

  /** The state after a handshake on whose application secrets both parties agree. */
  function Start(hash: nat, x: Term, y: Term): Pair { Pair(Fresh(hash, x, y), Fresh(hash, y, x), false) }

  function Run(s: Pair, xs: seq<(Step, bool)>): Pair
    decreases |xs|
  {
    if xs == [] then s else
    var t := Run(s, xs[..|xs| - 1]);
    StepOf(t, xs[|xs| - 1].0, xs[|xs| - 1].1)
  }

  /** No party closes while its own update waits. */
  predicate Clean(s: Pair, xs: seq<(Step, bool)>)
    decreases |xs|
  {
    xs == [] ||
    (&& Clean(s, xs[..|xs| - 1])
     && var t := Run(s, xs[..|xs| - 1]);
        var x := xs[|xs| - 1];
        x.0.DoShutdown? ==> (if x.1 then t.a else t.b).updating.Idle?)
  }

  // The reader follows the writer

  /** Where a reader gets by opening these records one after the other. */
  function Follow(t: Traffic, rs: seq<Record>): (r: Option<Traffic>)
    decreases |rs|
  {
    if rs == [] then Some(t)
    else if Opens(t, rs[0]) then Follow(After(t, rs[0]), rs[1..]) else None
  }

  lemma {:induction false} FollowMore(t: Traffic, rs: seq<Record>, r: Record)
    requires Follow(t, rs).Some?
    ensures Follow(t, rs + [r]) == (if Opens(Follow(t, rs).value, r) then Some(After(Follow(t, rs).value, r)) else None)
    decreases |rs|
  {
    if rs == [] { assert ([] + [r])[1..] == []; }
    else {
      assert (rs + [r])[1..] == rs[1..] + [r];
      FollowMore(After(t, rs[0]), rs[1..], r);
    }
  }

  /** The reader, once it has opened all that is under way, is where the writer is. */
  predicate Linked(w: Party, r: Party)
  {
    r.seen <= |w.out| && Follow(r.read, w.out[r.seen..]) == Some(w.write)
  }

  /** No alert was sent over a waiting update. */
  predicate Tidy(p: Party) { p.updating != Waiting(None) }

  predicate Good(s: Pair)
  {
    && !s.broken && Tidy(s.a) && Tidy(s.b)
    && Linked(s.a, s.b) && Linked(s.b, s.a)
  }

  lemma EmitLinks(w: Party, r: Party, c: Content)
    requires Linked(w, r)
    ensures Follow(r.read, Emit(w, c).out[r.seen..]) == Some(After(w.write, Record(w.write.secret, w.write.next, c)))
  {
    var e := Record(w.write.secret, w.write.next, c);
    assert (w.out + [e])[r.seen..] == w.out[r.seen..] + [e];
    FollowMore(r.read, w.out[r.seen..], e);
  }

  lemma CompleteLinks(w: Party, r: Party)
    requires Linked(w, r) && Tidy(w)
    ensures Linked(Complete(w), r) && Complete(w).updating.Idle?
  {
    if w.updating.Waiting? { EmitLinks(w, r, UpdateMsg(w.updating.queued.value)); }
  }

  lemma WriteLinks(w: Party, r: Party, id: nat)
    requires Linked(w, r) && Tidy(w)
    ensures Linked(Write(w, id), r) && Tidy(Write(w, id))
  {
    CompleteLinks(w, r);
    EmitLinks(Complete(w), r, AppData(id));
  }

  lemma ShutdownLinks(w: Party, r: Party)
    requires Linked(w, r) && w.updating.Idle?
    ensures Linked(Shutdown(w), r) && Tidy(Shutdown(w))
  {
    EmitLinks(w, r, CloseNotify);
  }

  /** The next record always opens, and afterwards both directions are still in step. */
  lemma ReadLinks(r: Party, w: Party)
    requires Linked(w, r) && Linked(r, w) && Tidy(r) && r.seen < |w.out|
    ensures Read(r, w.out[r.seen]).Some?
    ensures var q := Read(r, w.out[r.seen]).value; Linked(w, q) && Linked(q, w) && Tidy(q)
  {
    var e := w.out[r.seen];
    assert w.out[r.seen..][1..] == w.out[r.seen + 1..];
    CompleteLinks(r, w);
    var q := Complete(r);
    assert q.read == r.read && q.seen == r.seen;
    var o := q.(read := After(q.read, e), seen := q.seen + 1, eof := e.content.CloseNotify?);
    if e.content == UpdateMsg(true) {
      CompleteLinks(UpdateKey(o, false), w);
      SameReader(UpdateKey(o, false));
    }
  }

  lemma SameReader(p: Party)
    ensures Complete(p).read == p.read && Complete(p).seen == p.seen
  {}

  lemma StepGood(s: Pair, x: Step)
    requires Good(s) && (x.DoShutdown? ==> s.a.updating.Idle?)
    ensures Good(StepA(s, x))
  {
    match x
    case DoWrite(id) => WriteLinks(s.a, s.b, id); SameReader(s.a);
    case DoUpdate(r) =>
    case DoShutdown => ShutdownLinks(s.a, s.b);
    case DoHandshake => CompleteLinks(s.a, s.b); SameReader(s.a);
    case DoRead => if s.a.seen < |s.b.out| { ReadLinks(s.a, s.b); }
  }

  lemma StartGood(hash: nat, x: Term, y: Term)
    ensures Good(Start(hash, x, y))
  {}

  /** Over any interleaving of writes, reads and key updates in both directions, from parties in step,
      every record is opened with exactly the key and sequence number it was sealed with. */
  lemma {:induction false} EveryRecordOpens(s: Pair, steps: seq<(Step, bool)>)
    requires Good(s) && Clean(s, steps)
    ensures Good(Run(s, steps))
    decreases |steps|
  {
    if steps != [] {
      var n := |steps| - 1;
      EveryRecordOpens(s, steps[..n]);
      var t := Run(s, steps[..n]);
      if steps[n].1 { StepGood(t, steps[n].0); } else { StepGood(Swap(t), steps[n].0); }
    }
  }

  // What key and number that is

  /** How many KeyUpdates are among these records. */
  function Updates(rs: seq<Record>): (n: nat)
  {
    if rs == [] then 0 else Updates(rs[..|rs| - 1]) + (if rs[|rs| - 1].content.UpdateMsg? then 1 else 0)
  }

  /** How many records follow the last KeyUpdate. */
  function Since(rs: seq<Record>): (n: nat)
  {
    if rs == [] || rs[|rs| - 1].content.UpdateMsg? then 0 else Since(rs[..|rs| - 1]) + 1
  }

  predicate Labelled(hash: nat, x: Term, rs: seq<Record>)
  {
    forall i :: 0 <= i < |rs| ==> rs[i].key == Generation(hash, x, Updates(rs[..i])) && rs[i].seq_ == Since(rs[..i])
  }

  predicate Numbered(hash: nat, x: Term, p: Party)
  {
    Labelled(hash, x, p.out) && p.write == Traffic(hash, Generation(hash, x, Updates(p.out)), Since(p.out))
  }

  lemma LabelledMore(hash: nat, x: Term, rs: seq<Record>, r: Record)
    requires Labelled(hash, x, rs) && r.key == Generation(hash, x, Updates(rs)) && r.seq_ == Since(rs)
    ensures Labelled(hash, x, rs + [r])
  {
    hide Generation, Updates, Since;
    var all := rs + [r];
    assert all[..|rs|] == rs;
    forall i | 0 <= i < |all| ensures all[i].key == Generation(hash, x, Updates(all[..i]))
      && all[i].seq_ == Since(all[..i]) {
      if i < |rs| { assert all[..i] == rs[..i]; }
    }
  }

  /** What sealing one record does to the labels; the writer then moves on like the reader. */
  lemma EmitNumbers(hash: nat, x: Term, p: Party, c: Content)
    requires Numbered(hash, x, p)
    ensures var q := Emit(p, c);
            Numbered(hash, x, q.(write := After(p.write, Record(p.write.secret, p.write.next, c))))
  {
    hide Labelled;
    var r := Record(p.write.secret, p.write.next, c);
    LabelledMore(hash, x, p.out, r);
    assert (p.out + [r])[..|p.out|] == p.out;
  }

  lemma CompleteNumbers(hash: nat, x: Term, p: Party)
    requires Numbered(hash, x, p) && Tidy(p)
    ensures Numbered(hash, x, Complete(p)) && Tidy(Complete(p))
  {
    if p.updating.Waiting? { EmitNumbers(hash, x, p, UpdateMsg(p.updating.queued.value)); }
  }

  lemma ReadNumbers(hash: nat, x: Term, p: Party, e: Record)
    requires Numbered(hash, x, p) && Tidy(p) && Read(p, e).Some?
    ensures Numbered(hash, x, Read(p, e).value)
  {
    hide Labelled;
    CompleteNumbers(hash, x, p);
    var q := Complete(p);
    var o := q.(read := After(q.read, e), seen := q.seen + 1, eof := e.content.CloseNotify?);
    if e.content == UpdateMsg(true) {
      CompleteNumbers(hash, x, UpdateKey(o, false));
    }
  }

  lemma StepNumbers(hash: nat, x: Term, y: Term, s: Pair, z: Step)
    requires Numbered(hash, x, s.a) && Numbered(hash, y, s.b) && Tidy(s.a) && (z.DoShutdown? ==> s.a.updating.Idle?)
    ensures Numbered(hash, x, StepA(s, z).a) && Numbered(hash, y, StepA(s, z).b)
  {
    hide Labelled, Read, Complete, Updates, Since, Generation;
    CompleteNumbers(hash, x, s.a);
    match z
    case DoWrite(id) => EmitNumbers(hash, x, Complete(s.a), AppData(id));
    case DoUpdate(r) =>
    case DoShutdown => EmitNumbers(hash, x, s.a, CloseNotify);
    case DoHandshake =>
    case DoRead =>
      if !s.a.eof && s.a.seen < |s.b.out| && Read(s.a, s.b.out[s.a.seen]).Some? {
        ReadNumbers(hash, x, s.a, s.b.out[s.a.seen]);
      }
  }

  /** The n-th record's key is that of the generation counted by the KeyUpdates before it, and its
      sequence number counts the records since the last one. */
  lemma {:induction false} GenerationsCountUpdates(hash: nat, x: Term, y: Term, steps: seq<(Step, bool)>)
    requires Clean(Start(hash, x, y), steps)
    ensures var s := Run(Start(hash, x, y), steps); Labelled(hash, x, s.a.out) && Labelled(hash, y, s.b.out)
    ensures var s := Run(Start(hash, x, y), steps); Numbered(hash, x, s.a) && Numbered(hash, y, s.b)
    decreases |steps|
  {
    var s := Start(hash, x, y);
    if steps != [] {
      var n := |steps| - 1;
      GenerationsCountUpdates(hash, x, y, steps[..n]);
      StartGood(hash, x, y);
      EveryRecordOpens(s, steps[..n]);
      var t := Run(s, steps[..n]);
      if steps[n].1 { StepNumbers(hash, x, y, t, steps[n].0); } else { StepNumbers(hash, y, x, Swap(t), steps[n].0); }
    }
  }

  // The one exception

  /** A close_notify can be read by a peer that has followed so far exactly when no update of the
      closing party waits: otherwise it follows the KeyUpdate under the old key. */
  lemma CloseReadableIff(s: Pair)
    requires Good(s) && !s.a.closed
    ensures Follow(s.b.read, Shutdown(s.a).out[s.b.seen..]).Some? <==> s.a.updating.Idle?
  {
    if s.a.updating.Idle? { EmitLinks(s.a, s.b, CloseNotify); }
    else {
      var u := UpdateMsg(s.a.updating.queued.value);
      EmitLinks(s.a, s.b, u);
      var e := Record(s.a.write.secret, s.a.write.next + 1, CloseNotify);
      var rs := Emit(s.a, u).out[s.b.seen..];
      assert Shutdown(s.a).out[s.b.seen..] == rs + [e];
      FollowMore(s.b.read, rs, e);
      assert Follow(s.b.read, rs) == Some(Rekey(s.a.write));
    }
  }

  lemma RunMore(s: Pair, xs: seq<(Step, bool)>, x: (Step, bool))
    ensures Run(s, xs + [x]) == StepOf(Run(s, xs), x.0, x.1)
    ensures Clean(s, xs + [x]) ==> (x.0.DoShutdown? ==> (if x.1 then Run(s, xs).a else Run(s, xs).b).updating.Idle?)
    ensures Clean(s, xs + [x]) ==> Clean(s, xs)
  {
    assert (xs + [x])[..|xs|] == xs;
  }

  /** update_key(), shutdown(), and the peer's second read fails. */
  lemma CloseOverUpdateBreaks(hash: nat, x: Term, y: Term)
    ensures var steps := [] + [(DoUpdate(false), true)] + [(DoShutdown, true)] + [(DoRead, false)] + [(DoRead, false)];
            !Clean(Start(hash, x, y), steps) && Run(Start(hash, x, y), steps).broken
  {
    var s := Start(hash, x, y);
    var x1 := [] + [(DoUpdate(false), true)];
    var x2 := x1 + [(DoShutdown, true)];
    var x3 := x2 + [(DoRead, false)];
    hide Clean, Run;
    RunMore(s, [], (DoUpdate(false), true));
    RunNone(s);
    assert Run(s, x1) == s.(a := s.a.(updating := Waiting(Some(false))));
    RunMore(s, x1, (DoShutdown, true));
    var u, e := Record(x, 0, UpdateMsg(false)), Record(x, 1, CloseNotify);
    assert Run(s, x2).a.out == [u, e] && Run(s, x2).b == s.b;
    RunMore(s, x2, (DoRead, false));
    assert Run(s, x3).b == s.b.(read := Traffic(hash, UpdSecret(hash, x), 0), seen := 1);
    RunMore(s, x3, (DoRead, false));
    assert x != UpdSecret(hash, x);
  }

  lemma RunNone(s: Pair)
    ensures Run(s, []) == s
  {}
}
