/** src/simple_tls/tls/connection.py: application data through read(), and what _seal_record
    does before and _open_record_internal after the cipher. */
module AppReading {
  import opened Bits
  import opened Wire
  import opened Framing

  /** Python's s[:k] and del s[:k], also for negative k. */
  function Upto(n: nat, k: int): (r: nat)
    ensures r <= n
    ensures k >= 0 ==> r <= k
  {
    if k >= 0 then (if k < n then k else n) else (if n + k > 0 then n + k else 0)
  }

  datatype Outcome = Data(bytes: bytes) | WantRead | BufferTooSmall

  /** _pending_app_data. `received` is all application data that was opened so far, `delivered` all that
      read() returned. */
  class AppBuffer {
    var pending: bytes
    ghost var received: bytes
    ghost var delivered: bytes

    ghost predicate Valid() reads this { delivered + pending == received }

    constructor ()
      ensures Valid() && received == [] && delivered == []
    {
      pending := [];
      received, delivered := [], [];
    }

    /** read(length, buffer): `records` is the application data that can be opened now and
        `buffer` the size of the caller's buffer, if there is one. What was returned so far
        followed by what is pending is always what was opened. */
    method Read(length: int, buffer: Option<nat>, records: seq<bytes>) returns (r: Outcome, used: nat)
      requires Valid()
      modifies this
      ensures Valid() && used <= |records| && received == old(received) + Concat(records[..used])
      ensures delivered == old(delivered) + (if r.Data? then r.bytes else [])
      ensures r.WantRead? ==> pending == [] && used == |records|
      ensures r.BufferTooSmall? ==> buffer.Some? && pending != []
      ensures r.Data? && buffer.Some? ==> |r.bytes| <= buffer.value
      ensures r.Data? && length >= 0 ==> |r.bytes| <= length
      ensures r.Data? && length > 0 ==> r.bytes != []
    {
      hide Concat;
      used := 0;
      Empty(received, records);
      while pending == []
        invariant used <= |records| && Valid() && delivered == old(delivered)
        invariant received == old(received) + Concat(records[..used])
        decreases |records| - used, |pending|
      {
        if used == |records| { return WantRead, used; }
        var data := records[used];
        StepUsed(old(received), records, used);
        used := used + 1;
        received := received + data;
        if 0 < |data| <= length {
          if buffer.Some? && buffer.value < |data| {
            pending := data;
            return BufferTooSmall, used;
          }
          delivered := delivered + data;
          return Data(data), used;
        }
        pending := data;
        if pending != [] { break; }
      }
      r := Take(length, buffer);
    }

    /** The part of read() after its loop. */
    method Take(length: int, buffer: Option<nat>) returns (r: Outcome)
      requires Valid() && pending != []
      modifies this
      ensures Valid() && received == old(received) && !r.WantRead?
      ensures delivered == old(delivered) + (if r.Data? then r.bytes else [])
      ensures r.BufferTooSmall? <==> buffer.Some? && buffer.value < Upto(|old(pending)|, length)
      ensures r.BufferTooSmall? ==> pending == old(pending)
      ensures r.Data? ==> |r.bytes| == Upto(|old(pending)|, length)
    {
      var n := Upto(|pending|, length);
      if buffer.Some? && buffer.value < n { return BufferTooSmall; }
      var data := pending[..n];
      assert (delivered + data) + pending[n..] == delivered + pending;
      delivered := delivered + data;
      pending := pending[n..];
      return Data(data);
    }
  }

  lemma Empty(x: bytes, rs: seq<bytes>)
    ensures x + Concat(rs[..0]) == x
  {}

  lemma StepUsed(x: bytes, rs: seq<bytes>, n: nat)
    requires n < |rs|
    ensures (x + Concat(rs[..n])) + rs[n] == x + Concat(rs[..n + 1])
  {
    assert rs[..n + 1] == rs[..n] + [rs[n]];
    ConcatMore(rs[..n], rs[n]);
  }
}

module Sealing {
  import opened Bits
  import opened Wire
  import opened Framing
  import BlockRecords
  import AeadRecords
  import CipherParts
  import Cbc

  const APPLICATION_DATA: byte := 23
  const HEADER: nat := 5
  const LIMIT: nat := 16384
  const WRITE_BUFFER: nat := 16384 + 2 * (5 + 2048)
  const READ_BUFFER: nat := 16384 + 2048

  /** More room than this beyond the plaintext no seal method needs. */
  const SLACK: nat := 128

  lemma BlockSlack(s: BlockRecords.Suite, etm: bool, n: nat)
    requires BlockRecords.SuiteOk(s)
    ensures BlockRecords.MaxOverhead(s) + 2 * s.b.size <= SLACK
    ensures BlockRecords.CiphertextLength(s, etm, n) <= n + 96
  {
    BlockRecords.MteRoom(s, n);
  }

  /** What one honest record of any suite takes also fits the buffer it is opened into. */
  lemma HonestFitsReadBuffer(s: BlockRecords.Suite, etm: bool, n: nat)
    requires BlockRecords.SuiteOk(s) && n <= LIMIT
    ensures BlockRecords.CiphertextLength(s, etm, n) + s.b.size <= READ_BUFFER
  {
    BlockSlack(s, etm, n);
  }

  /** A record as the cipher gets it: sequence number, outer type, text, and the room left in the
      write buffer behind its header. */
  datatype Part = Part(seq_: nat, outer: byte, text: bytes, room: nat)

  /** ConnectionState of the writing side. */
  class WriteState {
    const ciphered: bool
    const splitting: bool
    const hides: bool
    var next: nat

    constructor (ciphered: bool, splitting: bool, hides: bool)
      ensures this.ciphered == ciphered && this.splitting == splitting && this.hides == hides && next == 0
    {
      this.ciphered, this.splitting, this.hides, next := ciphered, splitting, hides, 0;
    }

    /** _seal_record_internal: inner content type, header, sequence number. */
    method SealOne(ctype: byte, text: bytes, at: nat) returns (p: Part)
      requires |text| <= LIMIT && at + HEADER + |text| + 1 + SLACK <= WRITE_BUFFER
      modifies this`next
      ensures p.seq_ == old(next) && next == old(next) + (if ciphered then 1 else 0)
      ensures p.text == Hidden(hides, ctype, text) && p.outer == (if hides then APPLICATION_DATA else ctype)
      ensures p.room == WRITE_BUFFER - at - HEADER && |p.text| + SLACK <= p.room
    {
      p := Part(next, if hides then APPLICATION_DATA else ctype, Hidden(hides, ctype, text),
                WRITE_BUFFER - at - HEADER);
      next := next + (if ciphered then 1 else 0);
    }

    /** _seal_record: one record, or an octet ahead of the rest. Every record has room in the
        fixed buffer, its length fits the header, and the numbers run on. */
    method SealRecord(cl: nat -> nat, ctype: byte, text: bytes) returns (ps: seq<Part>)
      requires |text| <= LIMIT && forall n: nat :: n <= cl(n) <= n + 96
      requires splitting ==> ciphered && !hides
      modifies this`next
      ensures |ps| == if splitting && ctype == APPLICATION_DATA && |text| > 1 then 2 else 1
      ensures Concat(Texts(ps)) == Hidden(hides, ctype, text)
      ensures forall i :: 0 <= i < |ps| ==>
                && |ps[i].text| + SLACK <= ps[i].room && cl(|ps[i].text|) < 65536
                && (ciphered ==> ps[i].seq_ == old(next) + i)
      ensures next == old(next) + (if ciphered then |ps| else 0)
    {
      if splitting && ctype == APPLICATION_DATA && |text| > 1 {
        var p := SealOne(ctype, text[..1], 0);
        var q := SealOne(ctype, text[1..], HEADER + cl(1));
        ps := [p, q];
        Texts2(p, q);
        assert text == text[..1] + text[1..];
      } else {
        var p := SealOne(ctype, text, 0);
        ps := [p];
        Texts1(p);
      }
    }
  }

  function Texts(ps: seq<Part>): seq<bytes> { seq(|ps|, i requires 0 <= i < |ps| => ps[i].text) }

  lemma Texts1(p: Part)
    ensures Concat(Texts([p])) == p.text
  {
    assert Texts([p]) == [p.text] && [p.text][1..] == [];
    assert Concat([p.text]) == p.text + Concat([]);
  }

  lemma Texts2(p: Part, q: Part)
    ensures Concat(Texts([p, q])) == p.text + q.text
  {
    assert Texts([p, q]) == [p.text] + [q.text];
    assert Texts([p]) == [p.text];
    Texts1(p);
    ConcatMore([p.text], q.text);
  }

  /** TLS 1.3 hides the content type behind the text. */
  function Hidden(hides: bool, ctype: byte, text: bytes): (r: bytes) { if hides then text + [ctype] else text }

  /** `r` is the last octet that is not zero, and its place. */
  predicate LastNonZero(data: bytes, r: Option<(byte, nat)>)
  {
    match r
    case None => forall i :: 0 <= i < |data| ==> data[i] == 0
    case Some((value, pos)) =>
      pos < |data| && data[pos] == value != 0 && forall i :: 0 <= pos < i < |data| ==> data[i] == 0
  }

  /** _unpad_data_tlsv1_3: the last octet that is not zero is the type; `None` is an alert. */
  method Unpad(data: bytes) returns (r: Option<(byte, nat)>)
    ensures LastNonZero(data, r)
  {
    var pos: nat := |data|;
    while pos > 0
      invariant pos <= |data|
      invariant forall i :: pos <= i < |data| ==> data[i] == 0
    {
      pos := pos - 1;
      if data[pos] != 0 { return Some((data[pos], pos)); }
    }
    return None;
  }

  /** Whatever zero padding a peer adds, exactly the type and the text come back. */
  lemma UnpadHidden(ctype: byte, text: bytes, zeros: nat, r: Option<(byte, nat)>)
    requires ctype != 0
    ensures LastNonZero(Hidden(true, ctype, text) + seq(zeros, _ => 0), r) <==> r == Some((ctype, |text|))
  {
    var data := Hidden(true, ctype, text) + seq(zeros, _ => 0);
    assert data[|text|] == ctype;
  }
}
