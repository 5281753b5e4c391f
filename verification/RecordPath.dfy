/** The record layer from end to end: what one connection seals, framed, sent in any chunks and opened by
    its peer, is what was written. A mode of protection is any pair of functions that undo each other in
    step; AEAD suites, both ways of CBC and stream suites are such modes. */
module RecordPath {
  import opened Bits
  import opened Wire
  import opened Framing
  import opened RecordStream
  import opened Sealing
  import opened CipherParts
  import opened Cbc
  import AeadRecords
  import BlockRecords
  import StreamRecords

  const HANDSHAKE: byte := 22
  const ALERT: byte := 21

  /** `seal` and `open` take the cipher's state, the sequence number with type and version, the header and
      the data; `length` is ciphertext_length. */
  datatype Mode<!S> = Mode(
    hides: bool, version: nat, length: nat -> nat,
    seal: (S, Frame, bytes, bytes) -> (bytes, S), open: (S, Frame, bytes, bytes) -> Option<(bytes, S)>)

  ghost predicate ModeOk<S(!new)>(m: Mode<S>)
  {
    && m.version < Limit(2) && (forall n: nat :: n <= m.length(n) <= n + 96)
    && forall s: S, f: Frame, h: bytes, p: bytes :: FrameOk(f) && |p| <= TextLimit(m.hides) ==> Undoes(m, s, f, h, p)
  }

  /** The plaintext limit; a hidden type counts. */
  function TextLimit(hides: bool): nat { if hides then LIMIT + 1 else LIMIT }

  ghost predicate Undoes<S(!new)>(m: Mode<S>, s: S, f: Frame, h: bytes, p: bytes)
  {
    var r := m.seal(s, f, h, p);
    |r.0| == m.length(|p|) && m.open(s, f, h, r.0) == Some((p, r.1))
  }

  datatype Content = Content(ctype: byte, text: bytes)

  /** What a peer writes besides alerts: application data, or part of a handshake message. */
  predicate ContentOk(x: Content)
  {
    |x.text| <= LIMIT && (x.ctype == APPLICATION_DATA || (x.ctype == HANDSHAKE && x.text != []))
  }

  function OuterType(hides: bool, ctype: byte): byte { if hides then APPLICATION_DATA else ctype }

  /** _get_header */
  function HeaderOf(ctype: byte, version: nat, n: nat): (h: bytes)
    requires version < Limit(2) && n < Limit(2)
    ensures |h| == 5
  {
    [ctype] + IntToBytes(version, 2) + IntToBytes(n, 2)
  }

  lemma HeaderLength(ctype: byte, version: nat, n: nat)
    requires version < Limit(2) && n < Limit(2)
    ensures RecordLength(HeaderOf(ctype, version, n)) == n
  {
    hide IntToBytes, BytesToInt, Limit;
    assert HeaderOf(ctype, version, n)[3..5] == IntToBytes(n, 2);
    BytesOfInt(n, 2);
  }

  /** _seal_record_internal */
  function SealOne<S(!new)>(m: Mode<S>, s: S, n: nat, x: Content): (r: (bytes, S))
    requires m.version < Limit(2) && m.length(|Hidden(m.hides, x.ctype, x.text)|) < Limit(2)
  {
    var inner := Hidden(m.hides, x.ctype, x.text);
    var outer := OuterType(m.hides, x.ctype);
    var h := HeaderOf(outer, m.version, m.length(|inner|));
    var r := m.seal(s, Frame(n, outer, m.version), h, inner);
    (h + r.0, r.1)
  }

  /** _unpad_data_tlsv1_3 as a function. */
  function UnpadOf(data: bytes): (r: Option<(byte, nat)>)
    ensures LastNonZero(data, r)
  {
    if data == [] then None
    else if data[|data| - 1] != 0 then Some((data[|data| - 1], |data| - 1))
    else UnpadOf(data[..|data| - 1])
  }

  lemma UnpadFinds(ctype: byte, text: bytes)
    requires ctype != 0
    ensures UnpadOf(text + [ctype]) == Some((ctype, |text|)) && (text + [ctype])[..|text|] == text
  {}

  /** _open_record_internal from the decryption on; `None` is an alert, sent or received. */
  function OpenOne<S(!new)>(m: Mode<S>, s: S, n: nat, frame: bytes): (r: Option<(Content, S)>)
    requires |frame| >= 5
  {
    match m.open(s, Frame(n, frame[0], m.version), frame[..5], frame[5..])
    case None => None
    case Some((p, t)) =>
      if (m.hides && frame[0] != APPLICATION_DATA) || |p| > TextLimit(m.hides) then None
      else
        match Revealed(m.hides, frame[0], p)
        case None => None
        case Some(x) => if Refused(x) then None else Some((x, t))
  }

  /** The content behind a hidden type. */
  function Revealed(hides: bool, ctype: byte, p: bytes): (r: Option<Content>)
  {
    if !hides then Some(Content(ctype, p)) else
    match UnpadOf(p) case None => None case Some((c, k)) => Some(Content(c, p[..k]))
  }

  /** Nothing but application data may be empty, and alerts end the reading. */
  predicate Refused(x: Content) { (x.ctype != APPLICATION_DATA && x.text == []) || x.ctype == ALERT }

  lemma Sizes<S(!new)>(m: Mode<S>, x: Content)
    requires ModeOk(m) && ContentOk(x)
    ensures m.version < Limit(2) && m.length(|Hidden(m.hides, x.ctype, x.text)|) < Limit(2)
    ensures m.length(|Hidden(m.hides, x.ctype, x.text)|) <= RECORD_LIMIT + 2048
  {
    Limits();
  }

  /** One record: it is a frame, it opens to its content, and the states stay in step. */
  lemma OneOpens<S(!new)>(m: Mode<S>, s: S, n: nat, x: Content)
    requires ModeOk(m) && ContentOk(x) && n < Limit(8)
    ensures m.version < Limit(2) && m.length(|Hidden(m.hides, x.ctype, x.text)|) < Limit(2)
    ensures var r := SealOne(m, s, n, x);
            && IsFrame(RecordFormat(), r.0) && |r.0| >= 5 && OpenOne(m, s, n, r.0) == Some((x, r.1))
            && RecordLength(r.0[..5]) <= RECORD_LIMIT + 2048 && r.0[1..3] == IntToBytes(m.version, 2)
  {
    hide IntToBytes, Limit, RecordLength, UnpadOf;
    Sizes(m, x);
    var inner, outer := Hidden(m.hides, x.ctype, x.text), OuterType(m.hides, x.ctype);
    var h := HeaderOf(outer, m.version, m.length(|inner|));
    HeaderLength(outer, m.version, m.length(|inner|));
    assert Undoes(m, s, Frame(n, outer, m.version), h, inner);
    var r := SealOne(m, s, n, x);
    assert r.0[..5] == h && r.0[5..] == m.seal(s, Frame(n, outer, m.version), h, inner).0;
    if m.hides {
      UnpadFinds(x.ctype, x.text);
    }
  }

  // A stream of records

  ghost predicate AllOk(xs: seq<Content>) { forall i :: 0 <= i < |xs| ==> ContentOk(xs[i]) }

  /** The records of these contents and the state after them. */
  ghost function SealAll<S(!new)>(m: Mode<S>, s: S, xs: seq<Content>): (r: (seq<bytes>, S))
    requires ModeOk(m) && AllOk(xs)
    ensures |r.0| == |xs|
  {
    if xs == [] then ([], s) else
    var r := SealAll(m, s, xs[..|xs| - 1]);
    Sizes(m, xs[|xs| - 1]);
    var q := SealOne(m, r.1, |xs| - 1, xs[|xs| - 1]);
    (r.0 + [q.0], q.1)
  }

  /** Shorter runs are prefixes. */
  lemma {:induction false} SealPrefix<S(!new)>(m: Mode<S>, s: S, xs: seq<Content>, k: nat)
    requires ModeOk(m) && AllOk(xs) && k <= |xs|
    ensures SealAll(m, s, xs[..k]).0 == SealAll(m, s, xs).0[..k]
    decreases |xs|
  {
    hide SealOne, ModeOk;
    if k == |xs| { assert xs[..k] == xs; }
    else {
      var n := |xs| - 1;
      SealPrefix(m, s, xs[..n], k);
      assert xs[..n][..k] == xs[..k];
    }
  }

  /** The k-th record opens to the k-th content, in the state that the records before it lead to. */
  lemma RecordOpens<S(!new)>(m: Mode<S>, s: S, xs: seq<Content>, k: nat)
    requires ModeOk(m) && AllOk(xs) && k < |xs| <= Limit(8)
    ensures var x := SealAll(m, s, xs).0[k];
            && IsFrame(RecordFormat(), x) && |x| >= 5 && RecordLength(x[..5]) <= RECORD_LIMIT + 2048
            && x[1..3] == IntToBytes(m.version, 2)
            && OpenOne(m, SealAll(m, s, xs[..k]).1, k, x) == Some((xs[k], SealAll(m, s, xs[..k + 1]).1))
  {
    hide SealOne, OpenOne, IsFrame, RecordLength, IntToBytes, Limit, ModeOk;
    SealPrefix(m, s, xs, k + 1);
    assert xs[..k + 1][..k] == xs[..k];
    OneOpens(m, SealAll(m, s, xs[..k]).1, k, xs[k]);
    assert SealAll(m, s, xs).0[k] == SealAll(m, s, xs).0[..k + 1][k];
  }

  /** The frames of the beginning of a stream are the first frames of it. */
  lemma {:induction false} FramesOfPart(f: Format, part: bytes, rest: bytes, xs: seq<bytes>)
    requires f.header > 0 && (forall x <- xs :: IsFrame(f, x)) && part + rest == Concat(xs)
    ensures Frames(f, part) <= xs && (rest == [] ==> Frames(f, part) == xs)
    decreases |xs|
  {
    if xs == [] {
      assert part == [];
    } else {
      var x, tail := xs[0], Concat(xs[1..]);
      assert x in xs && IsFrame(f, x);
      var all := part + rest;
      assert all == x + tail && part == all[..|part|] && x == all[..|x|] && tail == all[|x|..];
      if |part| < |x| {
        assert |all| == |part| + |rest| && part == x[..|part|];
        if |part| >= f.header { assert part[..f.header] == x[..f.header]; }
      } else {
        var more := part[|x|..];
        assert part[..|x|] == x && part == x + more && more + rest == tail;
        FramesOfPart(f, more, rest, xs[1..]);
        FramesStep(f, x, more);
      }
    }
  }

  // Reading it

  /** What a reader that has brought `total` has of a stream: so many contents, in order, and the state. */
  ghost predicate Holds<S(!new)>(m: Mode<S>, s: S, xs: seq<Content>, taken: seq<bytes>, got: seq<Content>, state: S)
    requires ModeOk(m) && AllOk(xs)
  {
    |got| <= |xs| && got == xs[..|got|] && taken == SealAll(m, s, xs).0[..|got|]
      && state == SealAll(m, s, xs[..|got|]).1
  }

  /** A stream that starts with a record of the right version and size, seen so far or not. */
  lemma NextOf(unread: bytes, rest: bytes, x: bytes, tail: bytes, versionOk: bytes -> bool)
    requires unread + rest == x + tail && IsFrame(RecordFormat(), x) && |x| >= 5 && versionOk(x[..5])
    requires RecordLength(x[..5]) <= RECORD_LIMIT + 2048
    ensures NextRecord(versionOk, unread) == if |unread| < |x| then WantRead else Record(x)
  {
    hide RecordLength;
    var all := unread + rest;
    assert unread == all[..|unread|] && x == all[..|x|];
    if |unread| >= 5 { assert unread[..5] == x[..5]; }
  }

  /** The next record that a reader finds is the next one of the stream. */
  lemma NextIsOurs<S(!new)>(m: Mode<S>, s: S, xs: seq<Content>, k: nat, unread: bytes, rest: bytes,
                            versionOk: bytes -> bool)
    requires ModeOk(m) && AllOk(xs) && k <= |xs| <= Limit(8)
    requires (Concat(SealAll(m, s, xs).0[..k]) + unread) + rest == Concat(SealAll(m, s, xs).0)
    requires forall h: bytes :: |h| == 5 && h[1..3] == IntToBytes(m.version, 2) ==> versionOk(h)
    ensures var r := NextRecord(versionOk, unread);
            && (r.WantRead? || r.Record?)
            && (r.Record? ==> k < |xs| && r.frame == SealAll(m, s, xs).0[k])
  {
    hide SealAll, ModeOk, Limit, IntToBytes, RecordLength, OpenOne, Concat, NextRecord, IsFrame;
    var ys := SealAll(m, s, xs).0;
    TailOf(ys, k, unread, rest);
    if k < |xs| {
      RecordOpens(m, s, xs, k);
      ConcatFirst(ys, k);
      assert ys[k][..5][1..3] == ys[k][1..3];
      NextOf(unread, rest, ys[k], Concat(ys[k + 1..]), versionOk);
    } else {
      assert ys[k..] == [];
      NothingMore(unread, rest, versionOk);
    }
  }

  lemma TailOf(ys: seq<bytes>, k: nat, unread: bytes, rest: bytes)
    requires k <= |ys| && (Concat(ys[..k]) + unread) + rest == Concat(ys)
    ensures unread + rest == Concat(ys[k..])
  {
    hide Concat;
    CutConcat(ys, k);
    var c := Concat(ys[..k]);
    assert (c + unread) + rest == c + (unread + rest);
    SameTail(c, unread + rest, Concat(ys[k..]));
  }

  lemma CutConcat(ys: seq<bytes>, k: nat)
    requires k <= |ys|
    ensures Concat(ys) == Concat(ys[..k]) + Concat(ys[k..])
  {
    hide Concat;
    assert ys == ys[..k] + ys[k..];
    ConcatJoin(ys[..k], ys[k..]);
  }

  lemma NothingMore(unread: bytes, rest: bytes, versionOk: bytes -> bool)
    requires unread + rest == Concat([])
    ensures NextRecord(versionOk, unread) == WantRead
  {}

  lemma ConcatFirst(ys: seq<bytes>, k: nat)
    requires k < |ys|
    ensures Concat(ys[k..]) == ys[k] + Concat(ys[k + 1..])
  {
    assert ys[k..][1..] == ys[k + 1..];
  }

  lemma {:induction false} ConcatJoin(xs: seq<bytes>, ys: seq<bytes>)
    ensures Concat(xs + ys) == Concat(xs) + Concat(ys)
  {
    if xs == [] { assert xs + ys == ys; }
    else {
      assert (xs + ys)[1..] == xs[1..] + ys;
      ConcatJoin(xs[1..], ys);
      assert xs[0] + (Concat(xs[1..]) + Concat(ys)) == (xs[0] + Concat(xs[1..])) + Concat(ys);
    }
  }

  lemma SameTail(c: bytes, x: bytes, y: bytes)
    requires c + x == c + y
    ensures x == y
  {
    assert x == (c + x)[|c|..] && y == (c + y)[|c|..];
  }

  lemma TakeMore<S(!new)>(m: Mode<S>, s: S, xs: seq<Content>, taken: seq<bytes>, got: seq<Content>, state: S)
    requires ModeOk(m) && AllOk(xs) && |xs| <= Limit(8) && Holds(m, s, xs, taken, got, state) && |got| < |xs|
    ensures var x := SealAll(m, s, xs).0[|got|];
            && |x| >= 5 && OpenOne(m, state, |got|, x).Some?
            && var o := OpenOne(m, state, |got|, x).value; Holds(m, s, xs, taken + [x], got + [o.0], o.1)
  {
    hide SealAll, ModeOk, Limit, IntToBytes, RecordLength, OpenOne, IsFrame;
    RecordOpens(m, s, xs, |got|);
    var k := |got|;
    var ys := SealAll(m, s, xs).0;
    assert xs[..k + 1] == xs[..k] + [xs[k]] && ys[..k + 1] == ys[..k] + [ys[k]];
  }

  /** Every record that is complete is opened. */
  method OpenAvailable<S(!new)>(reader: RecordReader, m: Mode<S>, ghost s: S, ghost xs: seq<Content>,
                                got0: seq<Content>,
                                state0: S, ghost later: bytes, versionOk: bytes -> bool)
    returns (got: seq<Content>, state: S)
    requires ModeOk(m) && AllOk(xs) && |xs| <= Limit(8) && reader.Valid() && Holds(m, s, xs, reader.taken, got0, state0)
    requires reader.total + later == Concat(SealAll(m, s, xs).0)
    requires forall h: bytes :: |h| == 5 && h[1..3] == IntToBytes(m.version, 2) ==> versionOk(h)
    modifies reader
    ensures reader.Valid() && reader.total == old(reader.total) && Holds(m, s, xs, reader.taken, got, state)
    ensures reader.taken == Frames(RecordFormat(), reader.total)
  {
    hide SealAll, ModeOk, Limit, IntToBytes, OpenOne, NextRecord, Frames, Concat, IsFrame, RecordLength;
    got, state := got0, state0;
    while true
      invariant reader.Valid() && reader.total == old(reader.total) && Holds(m, s, xs, reader.taken, got, state)
      decreases |xs| - |got|
    {
      NextIsOurs(m, s, xs, |got|, reader.Rest(), later, versionOk);
      ghost var taken := reader.taken;
      var r := reader.OpenRecord(versionOk);
      if !r.Record? { return; }
      TakeMore(m, s, xs, taken, got, state);
      var o := OpenOne(m, state, |got|, r.frame);
      got, state := got + [o.value.0], o.value.1;
    }
  }

  lemma Arrived(chunks: seq<bytes>, i: nat, rest: bytes)
    requires i < |chunks|
    ensures Concat(chunks[..i]) + chunks[i] == Concat(chunks[..i + 1])
    ensures Concat(chunks[..i + 1]) + (Concat(chunks[i + 1..]) + rest) == Concat(chunks) + rest
  {
    hide Concat;
    ConcatNext(chunks, i);
    CutConcat(chunks, i + 1);
    Assoc(Concat(chunks[..i + 1]), Concat(chunks[i + 1..]), rest);
  }

  lemma ConcatNone(chunks: seq<bytes>)
    ensures Concat(chunks[..0]) == [] && chunks[..|chunks|] == chunks
  {}

  lemma NothingYet<S(!new)>(m: Mode<S>, s: S, xs: seq<Content>)
    requires ModeOk(m) && AllOk(xs)
    ensures Holds(m, s, xs, [], [], s) && [] == Frames(RecordFormat(), [])
  {
    assert xs[..0] == [];
  }

  lemma StreamFrames<S(!new)>(m: Mode<S>, s: S, xs: seq<Content>, total: bytes, rest: bytes)
    requires ModeOk(m) && AllOk(xs) && |xs| <= Limit(8) && total + rest == Concat(SealAll(m, s, xs).0)
    ensures rest == [] ==> Frames(RecordFormat(), total) == SealAll(m, s, xs).0
  {
    hide SealAll, ModeOk, Limit, IntToBytes, RecordLength, OpenOne, IsFrame, Frames, Concat;
    var ys := SealAll(m, s, xs).0;
    forall y | y in ys ensures IsFrame(RecordFormat(), y) {
      var k :| 0 <= k < |ys| && ys[k] == y;
      RecordOpens(m, s, xs, k);
    }
    FramesOfPart(RecordFormat(), total, rest, ys);
  }

  /** Any chunks that make up a beginning of the stream, fed one by one, with every record opened as soon as
      it is complete: nothing fails, and the contents come out in order; all of them once all has arrived. */
  method ReadAll<S(!new)>(m: Mode<S>, s: S, ghost xs: seq<Content>, chunks: seq<bytes>, ghost rest: bytes,
                          versionOk: bytes -> bool) returns (got: seq<Content>)
    requires ModeOk(m) && AllOk(xs) && |xs| <= Limit(8) && Concat(chunks) + rest == Concat(SealAll(m, s, xs).0)
    requires forall h: bytes :: |h| == 5 && h[1..3] == IntToBytes(m.version, 2) ==> versionOk(h)
    ensures got <= xs && (rest == [] ==> got == xs)
  {
    hide SealAll, ModeOk, Limit, IntToBytes, OpenOne, NextRecord, Frames, IsFrame, RecordLength, Holds, Concat;
    ConcatNone(chunks);
    var reader := new RecordReader();
    var state := s;
    got := [];
    NothingYet(m, s, xs);
    for i := 0 to |chunks|
      invariant fresh(reader) && reader.Valid() && Holds(m, s, xs, reader.taken, got, state)
      invariant reader.total == Concat(chunks[..i]) && reader.taken == Frames(RecordFormat(), reader.total)
    {
      Arrived(chunks, i, rest);
      reader.BioWrite(chunks[i]);
      got, state := OpenAvailable(reader, m, s, xs, got, state, Concat(chunks[i + 1..]) + rest, versionOk);
    }
    StreamFrames(m, s, xs, reader.total, rest);
    HoldsAll(m, s, xs, reader.taken, got, state);
  }

  lemma HoldsAll<S(!new)>(m: Mode<S>, s: S, xs: seq<Content>, taken: seq<bytes>, got: seq<Content>, state: S)
    requires ModeOk(m) && AllOk(xs) && Holds(m, s, xs, taken, got, state)
    ensures got <= xs && (taken == SealAll(m, s, xs).0 ==> got == xs)
  {
    hide ModeOk, SealAll;
  }

  // What was written

  /** _seal_record: with splitting an octet of application data goes ahead of the rest. */
  function Split(splitting: bool, x: Content): (r: seq<Content>)
    ensures ContentOk(x) ==> forall y <- r :: ContentOk(y)
  {
    if splitting && x.ctype == APPLICATION_DATA && |x.text| > 1
    then [Content(x.ctype, x.text[..1]), Content(x.ctype, x.text[1..])] else [x]
  }

  function Written(splitting: bool, ws: seq<Content>): (r: seq<Content>)
  {
    if ws == [] then [] else Written(splitting, ws[..|ws| - 1]) + Split(splitting, ws[|ws| - 1])
  }

  /** The application data among contents. */
  function AppText(xs: seq<Content>): (r: bytes)
  {
    if xs == [] then [] else
    var x := xs[|xs| - 1];
    AppText(xs[..|xs| - 1]) + (if x.ctype == APPLICATION_DATA then x.text else [])
  }

  lemma AppTextMore(xs: seq<Content>, x: Content)
    ensures AppText(xs + [x]) == AppText(xs) + (if x.ctype == APPLICATION_DATA then x.text else [])
  {
    assert (xs + [x])[..|xs|] == xs;
  }

  lemma SplitText(splitting: bool, xs: seq<Content>, x: Content)
    ensures AppText(xs + Split(splitting, x)) == AppText(xs) + (if x.ctype == APPLICATION_DATA then x.text else [])
  {
    hide AppText;
    AppTextMore(xs, x);
    if splitting && x.ctype == APPLICATION_DATA && |x.text| > 1 {
      var y, z := Content(x.ctype, x.text[..1]), Content(x.ctype, x.text[1..]);
      assert xs + Split(splitting, x) == (xs + [y]) + [z];
      AppTextMore(xs, y);
      AppTextMore(xs + [y], z);
      assert (AppText(xs) + x.text[..1]) + x.text[1..] == AppText(xs) + x.text;
    }
  }

  lemma {:induction false} WrittenText(splitting: bool, ws: seq<Content>)
    requires AllOk(ws)
    ensures AllOk(Written(splitting, ws)) && AppText(Written(splitting, ws)) == AppText(ws)
  {
    hide Split;
    if ws != [] {
      var n := |ws| - 1;
      WrittenText(splitting, ws[..n]);
      SplitText(splitting, Written(splitting, ws[..n]), ws[n]);
      var a, b := Written(splitting, ws[..n]), Split(splitting, ws[n]);
      forall i | 0 <= i < |a + b| ensures ContentOk((a + b)[i]) { assert i >= |a| ==> (a + b)[i] in b; }
    }
  }

  lemma {:induction false} AppTextPrefix(xs: seq<Content>, ys: seq<Content>)
    requires xs <= ys
    ensures AppText(xs) <= AppText(ys)
    decreases |ys|
  {
    if |xs| < |ys| { AppTextPrefix(xs, ys[..|ys| - 1]); } else { assert xs == ys; }
  }

  /** Application data written, split or not, sealed, framed, sent in any chunks and opened, is the data
      read: a beginning of it at any time, and all of it once all has arrived. */
  method ReadData<S(!new)>(m: Mode<S>, s: S, splitting: bool, ghost ws: seq<Content>, chunks: seq<bytes>,
                           ghost rest: bytes, versionOk: bytes -> bool) returns (data: bytes)
    requires ModeOk(m) && AllOk(ws) && AllOk(Written(splitting, ws)) && |Written(splitting, ws)| <= Limit(8)
    requires Concat(chunks) + rest == Concat(SealAll(m, s, Written(splitting, ws)).0)
    requires forall h: bytes :: |h| == 5 && h[1..3] == IntToBytes(m.version, 2) ==> versionOk(h)
    ensures data <= AppText(ws) && (rest == [] ==> data == AppText(ws))
  {
    hide ModeOk, SealAll, Limit, Concat, IntToBytes, AppText, Written;
    var got := ReadAll(m, s, Written(splitting, ws), chunks, rest, versionOk);
    WrittenText(splitting, ws);
    AppTextPrefix(got, Written(splitting, ws));
    data := AppText(got);
  }

  // AEAD suites

  /** Nothing but the sequence number changes. */
  ghost function AeadMode(s: AeadRecords.Suite, version: nat): Mode<()>
    requires AeadRecords.SuiteOk(s)
  {
    Mode(s.headerAad, version, (n: nat) => n + AeadRecords.MaxOverhead(s),
         (u: (), f: Frame, h: bytes, p: bytes) => (AeadSeal(s, f, h, p), ()),
         (u: (), f: Frame, h: bytes, c: bytes) => AeadOpen(s, f, h, c))
  }

  function AeadSeal(s: AeadRecords.Suite, f: Frame, h: bytes, p: bytes): bytes
    requires AeadRecords.SuiteOk(s)
  {
    if FrameOk(f) && |p| <= LIMIT + 1 then Limits(); AeadRecords.Seal(s, f, h, p, WRITE_BUFFER).value else []
  }

  function AeadOpen(s: AeadRecords.Suite, f: Frame, h: bytes, c: bytes): Option<(bytes, ())>
    requires AeadRecords.SuiteOk(s)
  {
    if !FrameOk(f) || |c| >= Limit(2) then None else
    match AeadRecords.Open(s, f, h, c, READ_BUFFER) case None => None case Some(p) => Some((p, ()))
  }

  lemma AeadUndoes(s: AeadRecords.Suite, version: nat, f: Frame, h: bytes, p: bytes)
    requires AeadRecords.SuiteOk(s) && FrameOk(f) && |p| <= LIMIT + 1
    ensures Undoes(AeadMode(s, version), (), f, h, p)
  {
    hide AeadRecords.Seal, AeadRecords.Open, Limit;
    Limits();
    AeadRecords.OpenSeal(s, f, h, p, WRITE_BUFFER, READ_BUFFER);
  }

  lemma AeadModeOk(s: AeadRecords.Suite, version: nat)
    requires AeadRecords.SuiteOk(s) && version < Limit(2)
    ensures ModeOk(AeadMode(s, version))
  {
    hide Undoes, Limit;
    forall u: (), f: Frame, h: bytes, p: bytes | FrameOk(f) && |p| <= LIMIT + 1
      ensures Undoes(AeadMode(s, version), u, f, h, p)
    {
      assert u == ();
      AeadUndoes(s, version, f, h, p);
    }
  }

  // CBC suites

  /** The IVs that TLS 1.1 and later draw for each record, or none. */
  ghost predicate IvsOk(s: BlockRecords.Suite, ivs: nat -> bytes)
  {
    BlockRecords.SuiteOk(s) && forall n: nat :: |ivs(n)| == |s.iv|
  }

  /** The state is the last block of ciphertext, which is always a block. */
  function Chained(b: Block, chain: bytes): (r: bytes)
    ensures |r| == b.size
  {
    if |chain| == b.size then chain else ZeroBytes(b.size)
  }

  function MteSeal(s: BlockRecords.Suite, ivs: nat -> bytes, chain: bytes, f: Frame, p: bytes): (bytes, bytes)
    requires IvsOk(s, ivs)
  {
    if FrameOk(f) && |p| <= LIMIT then
      var t := s.(iv := ivs(f.seq_));
      Limits(); BlockRecords.MteShape(t, f, p);
      var c := Encrypt(s.b, Chained(s.b, chain), Concat(BlockRecords.MteParts(t, f, p)));
      (c, Last(s.b, Chained(s.b, chain), c))
    else ([], chain)
  }

  function MteOpen(s: BlockRecords.Suite, chain: bytes, f: Frame, c: bytes): Option<(bytes, bytes)>
    requires BlockRecords.SuiteOk(s)
  {
    var start := Chained(s.b, chain);
    if !FrameOk(f) || |c| >= Limit(2) || READ_BUFFER < |c| + s.b.size || !BlockRecords.MteReadable(s, start, c)
      then None
    else
      match BlockRecords.MteText(s, start, f, c)
      case None => None
      case Some(p) => BlockRecords.IvFull(s); Some((p, Last(s.b, Last(s.b, start, c[..|s.iv|]), c[|s.iv|..])))
  }

  /** MAC-then-encrypt. */
  ghost function MteMode(s: BlockRecords.Suite, ivs: nat -> bytes, version: nat): Mode<bytes>
    requires IvsOk(s, ivs)
  {
    Mode(false, version, (n: nat) => BlockRecords.CiphertextLength(s, false, n),
         (chain: bytes, f: Frame, h: bytes, p: bytes) => MteSeal(s, ivs, chain, f, p),
         (chain: bytes, f: Frame, h: bytes, c: bytes) => MteOpen(s, chain, f, c))
  }

  lemma MteHonest(s: BlockRecords.Suite, ivs: nat -> bytes, chain: bytes, f: Frame, p: bytes)
    requires IvsOk(s, ivs) && FrameOk(f) && |p| <= LIMIT
    ensures var r := MteSeal(s, ivs, chain, f, p);
            && |r.0| == BlockRecords.CiphertextLength(s, false, |p|) && MteOpen(s, chain, f, r.0) == Some((p, r.1))
  {
    hide Encrypt, Limit, Whole, Last, BlockRecords.MteText, BlockRecords.MteReadable, BlockRecords.MteParts, Concat,
         MacOf, Inverse, MacOk, BlockRecords.CiphertextLength, IntToBytes;
    Limits();
    var t := s.(iv := ivs(f.seq_));
    BlockRecords.MteShape(t, f, p);
    SameLength(s, t, false, |p|);
    HonestFitsReadBuffer(s, false, |p|);
    BlockRecords.HonestText(s, t, Chained(s.b, chain), f, p, MteSeal(s, ivs, chain, f, p).0);
  }

  lemma SameLength(s: BlockRecords.Suite, t: BlockRecords.Suite, etm: bool, n: nat)
    requires BlockRecords.SuiteOk(s) && BlockRecords.SuiteOk(t) && t == s.(iv := t.iv) && |t.iv| == |s.iv|
    ensures BlockRecords.CiphertextLength(t, etm, n) == BlockRecords.CiphertextLength(s, etm, n)
  {
    hide Inverse, MacOk;
  }

  lemma MteUndoes(s: BlockRecords.Suite, ivs: nat -> bytes, version: nat, chain: bytes, f: Frame, h: bytes, p: bytes)
    requires IvsOk(s, ivs) && FrameOk(f) && |p| <= LIMIT
    ensures Undoes(MteMode(s, ivs, version), chain, f, h, p)
  {
    hide MteSeal, MteOpen, Limit, Inverse, MacOk, BlockRecords.CiphertextLength;
    MteHonest(s, ivs, chain, f, p);
  }

  lemma MteModeOk(s: BlockRecords.Suite, ivs: nat -> bytes, version: nat)
    requires IvsOk(s, ivs) && version < Limit(2)
    ensures ModeOk(MteMode(s, ivs, version))
  {
    hide Undoes, Limit;
    forall n: nat ensures n <= BlockRecords.CiphertextLength(s, false, n) <= n + 96 { BlockSlack(s, false, n); }
    forall chain: bytes, f: Frame, h: bytes, p: bytes | FrameOk(f) && |p| <= LIMIT
      ensures Undoes(MteMode(s, ivs, version), chain, f, h, p)
    {
      MteUndoes(s, ivs, version, chain, f, h, p);
    }
  }

  function EtmSeal(s: BlockRecords.Suite, ivs: nat -> bytes, chain: bytes, f: Frame, p: bytes): (bytes, bytes)
    requires IvsOk(s, ivs)
  {
    if FrameOk(f) && |p| <= LIMIT then
      var t := s.(iv := ivs(f.seq_));
      Limits(); BlockRecords.EtmShape(t, p); BlockSlack(s, true, |p|);
      var x := Encrypt(s.b, Chained(s.b, chain), Concat(BlockRecords.EtmParts(t, p)));
      (x + MacOf(s.mac, f, x), Last(s.b, Chained(s.b, chain), x))
    else ([], chain)
  }

  function EtmOpen(s: BlockRecords.Suite, chain: bytes, f: Frame, c: bytes): Option<(bytes, bytes)>
    requires BlockRecords.SuiteOk(s)
  {
    var start := Chained(s.b, chain);
    if !FrameOk(f) || |c| >= Limit(2) || READ_BUFFER < |c| + s.b.size then None
    else
      match BlockRecords.EtmText(s, start, f, c)
      case None => None
      case Some(p) =>
        BlockRecords.IvFull(s);
        var x := c[..|c| - s.mac.size];
        Some((p, Last(s.b, Last(s.b, start, x[..|s.iv|]), x[|s.iv|..])))
  }

  /** Encrypt-then-MAC. */
  ghost function EtmMode(s: BlockRecords.Suite, ivs: nat -> bytes, version: nat): Mode<bytes>
    requires IvsOk(s, ivs)
  {
    Mode(false, version, (n: nat) => BlockRecords.CiphertextLength(s, true, n),
         (chain: bytes, f: Frame, h: bytes, p: bytes) => EtmSeal(s, ivs, chain, f, p),
         (chain: bytes, f: Frame, h: bytes, c: bytes) => EtmOpen(s, chain, f, c))
  }

  lemma EtmHonest(s: BlockRecords.Suite, ivs: nat -> bytes, chain: bytes, f: Frame, p: bytes)
    requires IvsOk(s, ivs) && FrameOk(f) && |p| <= LIMIT
    ensures var r := EtmSeal(s, ivs, chain, f, p);
            && |r.0| == BlockRecords.CiphertextLength(s, true, |p|) && EtmOpen(s, chain, f, r.0) == Some((p, r.1))
  {
    hide Encrypt, Limit, Whole, Last, BlockRecords.EtmText, BlockRecords.EtmParts, Concat, MacOf, Inverse, MacOk,
         BlockRecords.CiphertextLength, IntToBytes;
    Limits();
    var t := s.(iv := ivs(f.seq_));
    BlockRecords.EtmShape(t, p);
    SameLength(s, t, true, |p|);
    HonestFitsReadBuffer(s, true, |p|);
    BlockRecords.HonestEtmText(s, t, Chained(s.b, chain), f, p, EtmSeal(s, ivs, chain, f, p).0);
  }

  lemma EtmUndoes(s: BlockRecords.Suite, ivs: nat -> bytes, version: nat, chain: bytes, f: Frame, h: bytes, p: bytes)
    requires IvsOk(s, ivs) && FrameOk(f) && |p| <= LIMIT
    ensures Undoes(EtmMode(s, ivs, version), chain, f, h, p)
  {
    hide EtmSeal, EtmOpen, Limit, Inverse, MacOk, BlockRecords.CiphertextLength;
    EtmHonest(s, ivs, chain, f, p);
  }

  lemma EtmModeOk(s: BlockRecords.Suite, ivs: nat -> bytes, version: nat)
    requires IvsOk(s, ivs) && version < Limit(2)
    ensures ModeOk(EtmMode(s, ivs, version))
  {
    hide Undoes, Limit;
    forall n: nat ensures n <= BlockRecords.CiphertextLength(s, true, n) <= n + 96 { BlockSlack(s, true, n); }
    forall chain: bytes, f: Frame, h: bytes, p: bytes | FrameOk(f) && |p| <= LIMIT
      ensures Undoes(EtmMode(s, ivs, version), chain, f, h, p)
    {
      EtmUndoes(s, ivs, version, chain, f, h, p);
    }
  }

  // Stream suites

  function StreamSeal(ks: Option<nat -> byte>, k: Mac, pos: nat, f: Frame, p: bytes): (bytes, nat)
  {
    Limits();
    if FrameOk(f) && |p| <= LIMIT then (StreamRecords.Mask(ks, pos, p + MacOf(k, f, p)), pos + |p| + k.size)
      else ([], pos)
  }

  function StreamOpen(ks: Option<nat -> byte>, k: Mac, pos: nat, f: Frame, c: bytes): Option<(bytes, nat)>
  {
    if !FrameOk(f) || |c| >= Limit(2) || READ_BUFFER < |c| || |c| < k.size then None
    else
      var data := StreamRecords.Mask(ks, pos, c);
      var n := |data| - k.size;
      if data[n..] == MacOf(k, f, data[..n]) then Some((data[..n], pos + |c|)) else None
  }

  ghost function StreamMode(ks: Option<nat -> byte>, k: Mac, version: nat): Mode<nat>
  {
    Mode(false, version, (n: nat) => n + k.size,
         (pos: nat, f: Frame, h: bytes, p: bytes) => StreamSeal(ks, k, pos, f, p),
         (pos: nat, f: Frame, h: bytes, c: bytes) => StreamOpen(ks, k, pos, f, c))
  }

  lemma StreamUndoes(ks: Option<nat -> byte>, k: Mac, version: nat, pos: nat, f: Frame, h: bytes, p: bytes)
    requires MacOk(k) && FrameOk(f) && |p| <= LIMIT
    ensures Undoes(StreamMode(ks, k, version), pos, f, h, p)
  {
    hide Limit, MacOf, StreamRecords.Mask;
    Limits();
    var x := p + MacOf(k, f, p);
    StreamRecords.MaskTwice(ks, pos, x);
    assert x[..|p|] == p && x[|p|..] == MacOf(k, f, p);
  }

  lemma StreamModeOk(ks: Option<nat -> byte>, k: Mac, version: nat)
    requires MacOk(k) && version < Limit(2)
    ensures ModeOk(StreamMode(ks, k, version))
  {
    hide Undoes, Limit;
    forall pos: nat, f: Frame, h: bytes, p: bytes | FrameOk(f) && |p| <= LIMIT
      ensures Undoes(StreamMode(ks, k, version), pos, f, h, p)
    {
      StreamUndoes(ks, k, version, pos, f, h, p);
    }
  }
}
