/** Byte streams cut into self-delimiting frames: records on the wire and messages in records. */
module Framing {
  import opened Bits
  import opened Wire

  /** A header of fixed size, from which the length of the body follows. */
  datatype Format = Format(header: nat, length: bytes -> nat)

  /** The first frame of a stream, if it is complete. */
  function First(f: Format, s: bytes): (r: Option<nat>)
    ensures r.Some? ==> f.header <= r.value <= |s|
  {
    if |s| < f.header then None
    else
      var n := f.header + f.length(s[..f.header]);
      if |s| < n then None else Some(n)
  }

  /** All complete frames of a stream. */
  function Frames(f: Format, s: bytes): (r: seq<bytes>)
    requires f.header > 0
    decreases |s|
  {
    match First(f, s)
    case None => []
    case Some(n) => [s[..n]] + Frames(f, s[n..])
  }

  /** `x` is exactly one frame. */
  predicate IsFrame(f: Format, x: bytes)
  {
    |x| >= f.header && |x| == f.header + f.length(x[..f.header])
  }

  /** What follows a frame does not change it. */
  lemma FirstOf(f: Format, x: bytes, rest: bytes)
    requires IsFrame(f, x)
    ensures First(f, x + rest) == Some(|x|) && (x + rest)[..|x|] == x && (x + rest)[|x|..] == rest
  {
    assert (x + rest)[..f.header] == x[..f.header];
  }

  lemma FramesStep(f: Format, x: bytes, rest: bytes)
    requires f.header > 0 && IsFrame(f, x)
    ensures Frames(f, x + rest) == [x] + Frames(f, rest)
  {
    FirstOf(f, x, rest);
  }

  /** The frames of a stream that starts with known ones. */
  lemma {:induction false} FramesAfter(f: Format, xs: seq<bytes>, rest: bytes)
    requires f.header > 0 && (forall x <- xs :: IsFrame(f, x))
    ensures Frames(f, Concat(xs) + rest) == xs + Frames(f, rest)
    decreases |xs|
  {
    hide Frames, IsFrame;
    if xs == [] { assert Concat(xs) + rest == rest; }
    else {
      var tail := Concat(xs[1..]) + rest;
      assert Concat(xs) + rest == xs[0] + tail;
      FramesStep(f, xs[0], tail);
      FramesAfter(f, xs[1..], rest);
      assert xs == [xs[0]] + xs[1..];
    }
  }

  /** Frames put one after the other are found again, in order, whatever incomplete one follows. */
  lemma Stuck(f: Format, xs: seq<bytes>, rest: bytes)
    requires f.header > 0 && (forall x <- xs :: IsFrame(f, x)) && First(f, rest).None?
    ensures Frames(f, Concat(xs) + rest) == xs
  {
    FramesAfter(f, xs, rest);
  }

  /** Known frames and one more. */
  lemma Advance(f: Format, xs: seq<bytes>, x: bytes, rest: bytes)
    requires f.header > 0 && (forall x <- xs :: IsFrame(f, x)) && IsFrame(f, x)
    ensures Concat(xs) + (x + rest) == Concat(xs + [x]) + rest
    ensures xs + [x] <= Frames(f, Concat(xs) + (x + rest))
  {
    hide Frames, IsFrame;
    ConcatMore(xs, x);
    FramesAfter(f, xs + [x], rest);
    assert Concat(xs) + (x + rest) == (Concat(xs) + x) + rest;
  }

  lemma PiecesStep(s: bytes, size: nat, k: nat)
    requires size > 0 && s != [] && k == (if size < |s| then size else |s|)
    ensures Pieces(s, size) == [s[..k]] + Pieces(s[k..], size)
  {
    if |s| <= size { assert s[..k] == s && s[k..] == []; }
  }

  /** Cutting a stream into pieces of at most `size`. */
  function Pieces(s: bytes, size: nat): (r: seq<bytes>)
    requires size > 0
    decreases |s|
  {
    if s == [] then [] else if |s| <= size then [s] else [s[..size]] + Pieces(s[size..], size)
  }

  lemma {:induction false} PiecesConcat(s: bytes, size: nat)
    requires size > 0
    ensures Concat(Pieces(s, size)) == s && forall x <- Pieces(s, size) :: 0 < |x| <= size
    decreases |s|
  {
    if |s| > size {
      PiecesConcat(s[size..], size);
      assert s == s[..size] + s[size..];
    } else if s != [] {
      assert [s][1..] == [] && Concat([s]) == s + Concat([]);
    }
  }
}

/** src/simple_tls/tls/connection.py and handshake.py: bytes to records to handshake messages. */
module RecordStream {
  import opened Bits
  import opened Wire
  import opened Framing

  const HEADER_LENGTH: nat := 5
  const RECORD_LIMIT: nat := 16384

  /** Content type, version, and the length of the fragment in two octets. */
  function RecordLength(h: bytes): nat { if |h| == HEADER_LENGTH then BytesToInt(h[3..5]) else 0 }

  function RecordFormat(): Format { Format(HEADER_LENGTH, RecordLength) }

  datatype Opened = WantRead | WrongVersion | TooLarge | Record(frame: bytes)

  /** What the next bytes of the stream amount to. */
  function NextRecord(versionOk: bytes -> bool, s: bytes): (r: Opened)
  {
    if |s| < HEADER_LENGTH then WantRead
    else if !versionOk(s[..HEADER_LENGTH]) then WrongVersion
    else
      var n := RecordLength(s[..HEADER_LENGTH]);
      if n > RECORD_LIMIT + 2048 then TooLarge
      else if |s| < HEADER_LENGTH + n then WantRead
      else Record(s[..HEADER_LENGTH + n])
  }

  /** The reading half of TLSConnection up to decryption. `total` is all that bio_write ever
      brought, `taken` the records handed on. */
  class RecordReader {
    var inbio: bytes
    var header: Option<bytes>
    ghost var total: bytes
    ghost var taken: seq<bytes>

    /** Bytes that belong to no record handed on. */
    ghost function Rest(): bytes
      reads this
    {
      (if header.Some? then header.value else []) + inbio
    }

    ghost predicate Valid()
      reads this
    {
      && (header.Some? ==> |header.value| == HEADER_LENGTH)
      && (forall x <- taken :: IsFrame(RecordFormat(), x))
      && total == Concat(taken) + Rest()
    }

    constructor ()
      ensures Valid() && total == [] && taken == []
    {
      inbio, header := [], None;
      total, taken := [], [];
    }

    method BioWrite(data: bytes)
      requires Valid()
      modifies this
      ensures Valid() && total == old(total) + data && taken == old(taken) && Rest() == old(Rest()) + data
    {
      hide Concat;
      inbio := inbio + data;
      total := total + data;
      assert Rest() == old(Rest()) + data;
    }

    /** _open_record_internal up to the decryption. Its answer depends on the unread part of the
        stream alone, not on the calls that brought it or on earlier attempts. */
    method OpenRecord(versionOk: bytes -> bool) returns (r: Opened)
      requires Valid()
      modifies this
      ensures Valid() && total == old(total)
      ensures r == NextRecord(versionOk, old(Rest()))
      ensures taken == old(taken) + (if r.Record? then [r.frame] else [])
      ensures taken <= Frames(RecordFormat(), total)
      ensures r.WantRead? ==> taken == Frames(RecordFormat(), total)
    {
      hide Frames, Concat;
      ghost var f, rest := RecordFormat(), Rest();
      if First(f, rest).None? { Stuck(f, taken, rest); }
      else {
        ghost var k := First(f, rest).value;
        Cut(rest);
        Advance(f, taken, rest[..k], rest[k..]);
      }
      if header.None? {
        if |inbio| < HEADER_LENGTH { return WantRead; }
        header, inbio := Some(inbio[..HEADER_LENGTH]), inbio[HEADER_LENGTH..];
        assert Rest() == rest;
      }
      assert rest[..HEADER_LENGTH] == header.value;
      if !versionOk(header.value) { return WrongVersion; }
      var n := RecordLength(header.value);
      if n > RECORD_LIMIT + 2048 { return TooLarge; }
      if |inbio| < n { return WantRead; }
      var frame := header.value + inbio[..n];
      assert rest[..HEADER_LENGTH + n] == frame && rest[HEADER_LENGTH + n..] == inbio[n..];
      header, inbio := None, inbio[n..];
      assert Rest() == inbio;
      taken := taken + [frame];
      return Record(frame);
    }
  }

  lemma Cut(s: bytes)
    requires First(RecordFormat(), s).Some?
    ensures var n := First(RecordFormat(), s).value;
            s == s[..n] + s[n..] && IsFrame(RecordFormat(), s[..n])
  {
    var n := First(RecordFormat(), s).value;
    assert s[..n][..HEADER_LENGTH] == s[..HEADER_LENGTH];
  }

  // Handshake messages

  /** Type and three octets of length. */
  function MessageLength(h: bytes): nat { if |h| == 4 then BytesToInt(h[1..4]) else 0 }

  function MessageFormat(): Format { Format(4, MessageLength) }

  datatype Handshake = Handshake(htype: byte, data: bytes)

  /** _pack_handshake of a message whose length fits. */
  function PackMessage(h: Handshake): (r: bytes)
    requires |h.data| < Limit(3)
    ensures IsFrame(MessageFormat(), r)
  {
    BytesOfInt(|h.data|, 3);
    var r := [h.htype] + IntToBytes(|h.data|, 3) + h.data;
    assert r[..4][1..4] == IntToBytes(|h.data|, 3);
    r
  }

  function UnpackMessage(x: bytes): (h: Handshake)
    requires IsFrame(MessageFormat(), x)
    ensures |h.data| < Limit(3) && PackMessage(h) == x
  {
    IntOfBytes(x[1..4]);
    assert x[..4][1..4] == x[1..4];
    assert x == [x[0]] + x[1..4] + x[4..];
    Handshake(x[0], x[4..])
  }

  /** The buffer and the cache of TLSHandshake. `total` is all that was ever fed, `taken` the
      messages consumed. */
  class Reassembler {
    var incoming: bytes
    var cache: Option<Handshake>
    ghost var total: bytes
    ghost var taken: seq<bytes>

    ghost predicate Valid()
      reads this
    {
      && (cache.Some? ==> |cache.value.data| < Limit(3))
      && (forall x <- taken :: IsFrame(MessageFormat(), x))
      && total == Concat(taken) + ((if cache.Some? then PackMessage(cache.value) else []) + incoming)
    }

    constructor ()
      ensures Valid() && total == [] && taken == []
    {
      incoming, cache := [], None;
      total, taken := [], [];
    }

    method FeedData(data: bytes)
      requires Valid()
      modifies this
      ensures Valid() && total == old(total) + data && taken == old(taken) && cache == old(cache)
    {
      hide Concat, PackMessage;
      ghost var held := if cache.Some? then PackMessage(cache.value) else [];
      assert (Concat(taken) + (held + incoming)) + data == Concat(taken) + (held + (incoming + data));
      incoming := incoming + data;
      total := total + data;
    }

    /** _read_handshake: the first message not yet consumed, however often it is asked for;
        `None` only if what was fed holds no further message. */
    method ReadHandshake() returns (r: Option<Handshake>)
      requires Valid()
      modifies this
      ensures Valid() && total == old(total) && taken == old(taken) && r == cache
      ensures r.None? ==> Frames(MessageFormat(), total) == taken
      ensures r.Some? ==> taken + [PackMessage(r.value)] <= Frames(MessageFormat(), total)
      ensures old(cache).Some? ==> r == old(cache)
    {
      hide Frames, Concat;
      if cache.None? {
        assert total == Concat(taken) + incoming;
        if |incoming| < 4 { Stuck(MessageFormat(), taken, incoming); return None; }
        var n := 4 + BytesToInt(incoming[1..4]);
        assert incoming[..4][1..4] == incoming[1..4];
        if |incoming| < n { Stuck(MessageFormat(), taken, incoming); return None; }
        var x := incoming[..n];
        assert x[..4] == incoming[..4];
        assert incoming == x + incoming[n..];
        cache, incoming := Some(UnpackMessage(x)), incoming[n..];
      }
      Advance(MessageFormat(), taken, PackMessage(cache.value), incoming);
      return cache;
    }

    /** _next_handshake */
    method NextHandshake()
      requires Valid() && cache.Some?
      modifies this
      ensures Valid() && total == old(total) && cache.None?
      ensures taken == old(taken) + [PackMessage(old(cache).value)]
    {
      hide Frames, Concat;
      ghost var x := PackMessage(cache.value);
      Advance(MessageFormat(), taken, x, incoming);
      taken := taken + [x];
      cache := None;
      assert [] + incoming == incoming;
    }
  }

  /** _pack_handshake of TLSConnection: the flight joined and cut to records that leave room for
      the inner content type. */
  method PackFlight(messages: seq<bytes>) returns (fragments: seq<bytes>)
    ensures Concat(fragments) == Concat(messages)
    ensures forall x <- fragments :: 0 < |x| <= RECORD_LIMIT - 1
    ensures fragments == Pieces(Concat(messages), RECORD_LIMIT - 1)
  {
    hide Pieces, Concat;
    var size := RECORD_LIMIT - 1;
    var data := Concat(messages);
    PiecesConcat(data, size);
    fragments := [];
    var i := 0;
    assert data[0..] == data;
    while i < |data|
      invariant 0 <= i <= |data|
      invariant fragments + Pieces(data[i..], size) == Pieces(data, size)
    {
      var j := if i + size < |data| then i + size else |data|;
      PiecesStep(data[i..], size, j - i);
      assert data[i..][..j - i] == data[i..j] && data[i..][j - i..] == data[j..];
      assert fragments + ([data[i..j]] + Pieces(data[j..], size))
             == (fragments + [data[i..j]]) + Pieces(data[j..], size);
      fragments := fragments + [data[i..j]];
      i := j;
    }
    assert data[|data|..] == [];
    NoPieces(size);
    assert fragments + [] == fragments;
  }

  lemma NoPieces(size: nat)
    requires size > 0
    ensures Pieces([], size) == []
  {}

  /** Messages survive being joined, cut into records, and fed record by record. */
  lemma FragmentsReassemble(messages: seq<bytes>, size: nat)
    requires size > 0 && forall x <- messages :: IsFrame(MessageFormat(), x)
    ensures Frames(MessageFormat(), Concat(Pieces(Concat(messages), size))) == messages
  {
    PiecesConcat(Concat(messages), size);
    Stuck(MessageFormat(), messages, []);
    assert Concat(messages) + [] == Concat(messages);
  }
}
