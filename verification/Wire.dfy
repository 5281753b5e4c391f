/** src/simple_tls/codec.py: big-endian integers, length-prefixed blocks, and the laws that
    make a parser and a writer inverse to each other. */
module Wire {
  import opened Bits

  datatype Option<+T> = None | Some(value: T)

  /** A wire format. `parse` takes the unread input and returns the value with what stays
      unread; `ser` fails where the writer raises; `wf` holds what only the parser checks. */
  datatype Codec<!T> = Codec(parse: bytes -> Option<(T, bytes)>, ser: T -> Option<bytes>, wf: T -> bool)

  /** Writing and reading back returns the value and leaves later input alone; and every
      accepted input is the writing of the value it was read as, followed by the rest. */
  ghost predicate Lawful<T(!new)>(c: Codec<T>)
  {
    && (forall v, rest: bytes :: c.wf(v) && c.ser(v).Some? ==> Reads(c, v, rest))
    && (forall s: bytes :: c.parse(s).Some? ==> Writes(c, s))
  }

  ghost predicate Reads<T(!new)>(c: Codec<T>, v: T, rest: bytes)
    requires c.ser(v).Some?
  {
    c.parse(c.ser(v).value + rest) == Some((v, rest))
  }

  ghost predicate Writes<T(!new)>(c: Codec<T>, s: bytes)
    requires c.parse(s).Some?
  {
    var (v, rest) := c.parse(s).value;
    c.wf(v) && c.ser(v).Some? && s == c.ser(v).value + rest
  }

  /** Every value takes at least one octet. */
  ghost predicate Productive<T(!new)>(c: Codec<T>)
  {
    forall v :: c.ser(v).Some? ==> |c.ser(v).value| > 0
  }

  // Integers

  function Limit(size: nat): (r: nat)
    ensures r > 0
  {
    if size == 0 then 1 else 256 * Limit(size - 1)
  }

  function BytesToInt(s: bytes): (n: nat)
    ensures n < Limit(|s|)
  {
    if s == [] then 0 else 256 * BytesToInt(s[..|s| - 1]) + s[|s| - 1]
  }

  function IntToBytes(n: nat, size: nat): (s: bytes)
    requires n < Limit(size)
    ensures |s| == size
  {
    if size == 0 then [] else IntToBytes(n / 256, size - 1) + [n % 256]
  }

  lemma {:induction false} BytesOfInt(n: nat, size: nat)
    requires n < Limit(size)
    ensures BytesToInt(IntToBytes(n, size)) == n
  {
    if size > 0 {
      BytesOfInt(n / 256, size - 1);
      assert IntToBytes(n, size)[..size - 1] == IntToBytes(n / 256, size - 1);
    }
  }

  lemma {:induction false} IntOfBytes(s: bytes)
    ensures IntToBytes(BytesToInt(s), |s|) == s
  {
    if s != [] {
      IntOfBytes(s[..|s| - 1]);
      assert BytesToInt(s) / 256 == BytesToInt(s[..|s| - 1]) && BytesToInt(s) % 256 == s[|s| - 1];
    }
  }

  /** Parser.read_bytes */
  function TakeBytes(s: bytes, size: nat): (r: Option<(bytes, bytes)>)
  {
    if size > |s| then None else Some((s[..size], s[size..]))
  }

  /** Parser.read_int */
  function TakeInt(s: bytes, size: nat): (r: Option<(nat, bytes)>)
  {
    match TakeBytes(s, size)
    case None => None
    case Some((b, rest)) => Some((BytesToInt(b), rest))
  }

  /** Writer.write_int; `None` is the ValueError for an integer that does not fit. */
  function PutInt(n: nat, size: nat): (r: Option<bytes>)
  {
    if n < Limit(size) then Some(IntToBytes(n, size)) else None
  }

  function Join(a: Option<bytes>, b: Option<bytes>): (r: Option<bytes>)
  {
    if a.Some? && b.Some? then Some(a.value + b.value) else None
  }

  /** Writer.write_prefixed_bytes */
  function PutBlock(s: bytes, prefix: nat): (r: Option<bytes>)
  {
    Join(PutInt(|s|, prefix), Some(s))
  }

  function IntC(size: nat): Codec<nat>
  {
    Codec((s: bytes) => TakeInt(s, size), (n: nat) => PutInt(n, size), (n: nat) => true)
  }

  function FixedC(size: nat): Codec<bytes>
  {
    Codec((s: bytes) => TakeBytes(s, size), (b: bytes) => if |b| == size then Some(b) else None, (b: bytes) => true)
  }

  lemma PutTake(n: nat, size: nat, rest: bytes)
    requires n < Limit(size)
    ensures TakeInt(IntToBytes(n, size) + rest, size) == Some((n, rest))
  {
    BytesOfInt(n, size);
    assert (IntToBytes(n, size) + rest)[..size] == IntToBytes(n, size);
  }

  lemma TakePut(s: bytes, size: nat)
    requires size <= |s|
    ensures TakeInt(s, size) == Some((BytesToInt(s[..size]), s[size..]))
    ensures PutInt(BytesToInt(s[..size]), size) == Some(s[..size])
  {
    IntOfBytes(s[..size]);
  }

  lemma IntLawful(size: nat)
    ensures Lawful(IntC(size))
    ensures size > 0 ==> Productive(IntC(size))
  {
    var c := IntC(size);
    forall v: nat, rest: bytes | c.ser(v).Some? ensures Reads(c, v, rest) { PutTake(v, size, rest); }
    forall s: bytes | c.parse(s).Some? ensures Writes(c, s) { TakePut(s, size); }
  }

  lemma FixedLawful(size: nat)
    ensures Lawful(FixedC(size))
    ensures size > 0 ==> Productive(FixedC(size))
  {
    var c := FixedC(size);
    forall v: bytes, rest: bytes | c.ser(v).Some? ensures Reads(c, v, rest) {
      assert (v + rest)[..size] == v && (v + rest)[size..] == rest;
    }
    forall s: bytes | c.parse(s).Some? ensures Writes(c, s) {}
  }

  // Octet strings

  function ZeroBytes(n: nat): (z: bytes)
    ensures |z| == n && forall i :: 0 <= i < n ==> z[i] == 0
  {
    seq(n, _ => 0)
  }

  lemma Assoc(a: bytes, b: bytes, c: bytes)
    ensures a + (b + c) == (a + b) + c
  {}

  lemma Limits()
    ensures Limit(1) == 256 && Limit(2) == 65536 && Limit(3) == 16777216 && Limit(4) == 4294967296
  {}

  function Concat(xs: seq<bytes>): (r: bytes)
  {
    if xs == [] then [] else xs[0] + Concat(xs[1..])
  }

  lemma {:induction false} ConcatMore(xs: seq<bytes>, x: bytes)
    ensures Concat(xs + [x]) == Concat(xs) + x
  {
    if xs == [] { assert xs + [x] == [x] && Concat([x][1..]) == []; }
    else {
      assert (xs + [x])[1..] == xs[1..] + [x];
      ConcatMore(xs[1..], x);
    }
  }

  // Two formats in a row

  function ParsePair<A, B>(a: Codec<A>, b: Codec<B>, s: bytes): (r: Option<((A, B), bytes)>)
  {
    match a.parse(s)
    case None => None
    case Some((x, s1)) =>
      match b.parse(s1)
      case None => None
      case Some((y, s2)) => Some(((x, y), s2))
  }

  function PairC<A, B>(a: Codec<A>, b: Codec<B>): Codec<(A, B)>
  {
    Codec((s: bytes) => ParsePair(a, b, s),
          (v: (A, B)) => Join(a.ser(v.0), b.ser(v.1)),
          (v: (A, B)) => a.wf(v.0) && b.wf(v.1))
  }

  lemma PairLawful<A(!new), B(!new)>(a: Codec<A>, b: Codec<B>)
    requires Lawful(a) && Lawful(b)
    ensures Lawful(PairC(a, b))
    ensures Productive(a) || Productive(b) ==> Productive(PairC(a, b))
  {
    var c := PairC(a, b);
    forall v: (A, B), rest: bytes | c.wf(v) && c.ser(v).Some? ensures Reads(c, v, rest) {
      var sa, sb := a.ser(v.0).value, b.ser(v.1).value;
      assert Reads(a, v.0, sb + rest) && Reads(b, v.1, rest);
      assert sa + sb + rest == sa + (sb + rest);
    }
    forall s: bytes | c.parse(s).Some? ensures Writes(c, s) {
      var (x, s1) := a.parse(s).value;
      var (y, s2) := b.parse(s1).value;
      assert Writes(a, s) && Writes(b, s1);
      assert s == a.ser(x).value + b.ser(y).value + s2;
    }
    forall v: (A, B) | c.ser(v).Some? && (Productive(a) || Productive(b)) ensures |c.ser(v).value| > 0 {
      assert a.ser(v.0).Some? && b.ser(v.1).Some?;
    }
  }

  // The same octets under another type

  function MapC<A, B>(c: Codec<A>, to: A -> B, from: B -> A): Codec<B>
  {
    Codec((s: bytes) => match c.parse(s) case None => None case Some((v, rest)) => Some((to(v), rest)),
          (b: B) => c.ser(from(b)),
          (b: B) => c.wf(from(b)))
  }

  lemma MapLawful<A(!new), B(!new)>(c: Codec<A>, to: A -> B, from: B -> A)
    requires Lawful(c)
    requires forall a: A :: from(to(a)) == a
    requires forall b: B :: to(from(b)) == b
    ensures Lawful(MapC(c, to, from))
    ensures Productive(c) ==> Productive(MapC(c, to, from))
  {
    var m := MapC(c, to, from);
    forall b: B, rest: bytes | m.wf(b) && m.ser(b).Some? ensures Reads(m, b, rest) {
      assert Reads(c, from(b), rest);
    }
    forall s: bytes | m.parse(s).Some? ensures Writes(m, s) {
      assert Writes(c, s);
    }
  }

  // A check made by the parser only, or by both sides

  function CheckC<T>(c: Codec<T>, p: T -> bool, writerChecks: bool): Codec<T>
  {
    Codec((s: bytes) => (match c.parse(s)
                         case None => None
                         case Some((v, rest)) => if p(v) then Some((v, rest)) else None),
          (v: T) => if writerChecks && !p(v) then None else c.ser(v),
          (v: T) => c.wf(v) && p(v))
  }

  lemma CheckLawful<T(!new)>(c: Codec<T>, p: T -> bool, writerChecks: bool)
    requires Lawful(c)
    ensures Lawful(CheckC(c, p, writerChecks))
    ensures Productive(c) ==> Productive(CheckC(c, p, writerChecks))
  {
    var k := CheckC(c, p, writerChecks);
    forall v: T, rest: bytes | k.wf(v) && k.ser(v).Some? ensures Reads(k, v, rest) {
      assert Reads(c, v, rest);
    }
    forall s: bytes | k.parse(s).Some? ensures Writes(k, s) {
      assert Writes(c, s);
    }
  }

  // Parser.assert_length around one format, and around a run of items

  /** The block must end exactly where the format stops reading. The format itself may
      read past the end of the block, as Parser allows; that is then an error. */
  function ParseBlock<T>(c: Codec<T>, prefix: nat, s: bytes): (r: Option<(T, bytes)>)
  {
    match TakeInt(s, prefix)
    case None => None
    case Some((n, s1)) =>
      match c.parse(s1)
      case None => None
      case Some((v, s2)) => if |s2| + n == |s1| then Some((v, s2)) else None
  }

  function BlockC<T>(c: Codec<T>, prefix: nat): Codec<T>
  {
    Codec((s: bytes) => ParseBlock(c, prefix, s),
          (v: T) => if c.ser(v).Some? then PutBlock(c.ser(v).value, prefix) else None,
          c.wf)
  }

  lemma BlockLawful<T(!new)>(c: Codec<T>, prefix: nat)
    requires Lawful(c) && prefix > 0
    ensures Lawful(BlockC(c, prefix)) && Productive(BlockC(c, prefix))
  {
    var k := BlockC(c, prefix);
    forall v: T, rest: bytes | k.wf(v) && k.ser(v).Some? ensures Reads(k, v, rest) {
      var body := c.ser(v).value;
      PutTake(|body|, prefix, body + rest);
      assert Reads(c, v, rest);
      assert IntToBytes(|body|, prefix) + body + rest == IntToBytes(|body|, prefix) + (body + rest);
    }
    forall s: bytes | k.parse(s).Some? ensures Writes(k, s) {
      TakePut(s, prefix);
      var s1 := s[prefix..];
      assert Writes(c, s1);
      assert s == s[..prefix] + s1;
      var (v, s2) := c.parse(s1).value;
      assert s == s[..prefix] + c.ser(v).value + s2;
    }
  }

  /** `while parser.tell() < end`: items until `n` octets are used up. */
  function ParseItems<T>(c: Codec<T>, n: int, s: bytes): (r: Option<(seq<T>, bytes)>)
    decreases |s|
  {
    if n <= 0 then (if n == 0 then Some(([], s)) else None) else
    match c.parse(s)
    case None => None
    case Some((v, s1)) =>
      if |s1| >= |s| then None else
      match ParseItems(c, n - (|s| - |s1|), s1)
      case None => None
      case Some((vs, s2)) => Some(([v] + vs, s2))
  }

  function SerItems<T>(c: Codec<T>, vs: seq<T>): (r: Option<bytes>)
  {
    if vs == [] then Some([]) else Join(c.ser(vs[0]), SerItems(c, vs[1..]))
  }

  predicate AllWf<T>(c: Codec<T>, vs: seq<T>)
  {
    vs == [] || (c.wf(vs[0]) && AllWf(c, vs[1..]))
  }

  function ParseList<T>(c: Codec<T>, prefix: nat, s: bytes): (r: Option<(seq<T>, bytes)>)
  {
    match TakeInt(s, prefix)
    case None => None
    case Some((n, s1)) => ParseItems(c, n, s1)
  }

  function ListC<T>(c: Codec<T>, prefix: nat): Codec<seq<T>>
  {
    Codec((s: bytes) => ParseList(c, prefix, s),
          (vs: seq<T>) => if SerItems(c, vs).Some? then PutBlock(SerItems(c, vs).value, prefix) else None,
          (vs: seq<T>) => AllWf(c, vs))
  }

  lemma {:induction false} ItemsRead<T(!new)>(c: Codec<T>, vs: seq<T>, rest: bytes)
    requires Lawful(c) && Productive(c)
    requires AllWf(c, vs) && SerItems(c, vs).Some?
    ensures ParseItems(c, |SerItems(c, vs).value|, SerItems(c, vs).value + rest) == Some((vs, rest))
  {
    if vs != [] {
      var hd, tl := c.ser(vs[0]).value, SerItems(c, vs[1..]).value;
      ItemsRead(c, vs[1..], rest);
      assert Reads(c, vs[0], tl + rest);
      assert hd + tl + rest == hd + (tl + rest);
      assert vs == [vs[0]] + vs[1..];
    } else {
      assert [] + rest == rest;
    }
  }

  lemma {:induction false} ItemsWrite<T(!new)>(c: Codec<T>, n: int, s: bytes)
    requires Lawful(c)
    requires ParseItems(c, n, s).Some?
    ensures var (vs, rest) := ParseItems(c, n, s).value;
            && AllWf(c, vs) && SerItems(c, vs).Some?
            && |SerItems(c, vs).value| == n && s == SerItems(c, vs).value + rest
    decreases |s|
  {
    if n > 0 {
      var (v, s1) := c.parse(s).value;
      assert Writes(c, s);
      ItemsWrite(c, n - (|s| - |s1|), s1);
      var (vs, s2) := ParseItems(c, n - (|s| - |s1|), s1).value;
      assert ([v] + vs)[1..] == vs;
      assert s == c.ser(v).value + SerItems(c, vs).value + s2;
    }
  }

  lemma ListReads<T(!new)>(c: Codec<T>, prefix: nat, vs: seq<T>, rest: bytes)
    requires Lawful(c) && Productive(c) && AllWf(c, vs) && ListC(c, prefix).ser(vs).Some?
    ensures Reads(ListC(c, prefix), vs, rest)
  {
    hide IntToBytes, Limit, Lawful, Productive, ParseItems, SerItems, AllWf;
    var body := SerItems(c, vs).value;
    PutTake(|body|, prefix, body + rest);
    ItemsRead(c, vs, rest);
    assert IntToBytes(|body|, prefix) + body + rest == IntToBytes(|body|, prefix) + (body + rest);
  }

  lemma ListWrites<T(!new)>(c: Codec<T>, prefix: nat, s: bytes)
    requires Lawful(c) && ListC(c, prefix).parse(s).Some?
    ensures Writes(ListC(c, prefix), s)
  {
    hide IntToBytes, Limit, Lawful, ParseItems, SerItems, AllWf;
    TakePut(s, prefix);
    var s1 := s[prefix..];
    var n := BytesToInt(s[..prefix]);
    ItemsWrite(c, n, s1);
    var (vs, s2) := ParseItems(c, n, s1).value;
    assert s == s[..prefix] + SerItems(c, vs).value + s2;
  }

  lemma ListLawful<T(!new)>(c: Codec<T>, prefix: nat)
    requires Lawful(c) && Productive(c) && prefix > 0
    ensures Lawful(ListC(c, prefix)) && Productive(ListC(c, prefix))
  {
    hide ParseList, SerItems, AllWf;
    var k := ListC(c, prefix);
    forall vs: seq<T>, rest: bytes | k.wf(vs) && k.ser(vs).Some? ensures Reads(k, vs, rest) {
      ListReads(c, prefix, vs, rest);
    }
    forall s: bytes | k.parse(s).Some? ensures Writes(k, s) { ListWrites(c, prefix, s); }
  }

  /** Parser.read_prefixed_bytes / Writer.write_prefixed_bytes */
  function ParseBlob(prefix: nat, s: bytes): (r: Option<(bytes, bytes)>)
  {
    match TakeInt(s, prefix)
    case None => None
    case Some((n, s1)) => TakeBytes(s1, n)
  }

  function BlobC(prefix: nat): Codec<bytes>
  {
    Codec((s: bytes) => ParseBlob(prefix, s), (b: bytes) => PutBlock(b, prefix), (b: bytes) => true)
  }

  lemma BlobLawful(prefix: nat)
    requires prefix > 0
    ensures Lawful(BlobC(prefix)) && Productive(BlobC(prefix))
  {
    var k := BlobC(prefix);
    forall b: bytes, rest: bytes | k.ser(b).Some? ensures Reads(k, b, rest) {
      PutTake(|b|, prefix, b + rest);
      assert IntToBytes(|b|, prefix) + b + rest == IntToBytes(|b|, prefix) + (b + rest);
      assert (b + rest)[..|b|] == b && (b + rest)[|b|..] == rest;
    }
    forall s: bytes | k.parse(s).Some? ensures Writes(k, s) {
      TakePut(s, prefix);
      var n := BytesToInt(s[..prefix]);
      assert s == s[..prefix] + s[prefix..][..n] + s[prefix..][n..];
    }
  }

  /** `from_bytes`: nothing may stay unread. */
  function FromBytes<T>(c: Codec<T>, s: bytes): (r: Option<T>)
  {
    match c.parse(s)
    case None => None
    case Some((v, rest)) => if rest == [] then Some(v) else None
  }

  /** A lawful format is a bijection between well-formed writable values and accepted strings. */
  lemma RoundTrip<T(!new)>(c: Codec<T>, v: T, s: bytes)
    requires Lawful(c)
    ensures c.wf(v) && c.ser(v) == Some(s) <==> FromBytes(c, s) == Some(v)
  {
    if c.wf(v) && c.ser(v) == Some(s) {
      assert Reads(c, v, []);
      assert s + [] == s;
    }
    if FromBytes(c, s) == Some(v) {
      assert Writes(c, s);
      assert c.ser(v).value + [] == c.ser(v).value;
    }
  }
}
