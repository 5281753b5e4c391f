/** src/simple_tls/tls/cipher.py: record protection. Ciphers and MACs are arbitrary keyed
    functions; what is proved is the layout around them. */
module CipherParts {
  import opened Bits
  import opened Wire
  import opened Cbc
  import CbcPadding

  // MAC over sequence number, type, version, length and data

  datatype Mac = Mac(size: nat, f: bytes -> bytes)

  ghost predicate MacOk(m: Mac)
  {
    m.size <= CbcPadding.MAX_MAC_SIZE && forall x: bytes :: |m.f(x)| == m.size
  }

  /** What is authenticated besides the data. */
  datatype Frame = Frame(seq_: nat, ctype: byte, version: nat)

  predicate FrameOk(f: Frame) { f.seq_ < Limit(8) && f.version < Limit(2) }

  /** struct.pack("!QBHH", ...), also the additional data of TLS 1.2 AEAD records. */
  function Aad(f: Frame, len: nat): (r: bytes)
    requires FrameOk(f) && len < Limit(2)
  {
    IntToBytes(f.seq_, 8) + [f.ctype] + IntToBytes(f.version, 2) + IntToBytes(len, 2)
  }

  /** _get_mac */
  function MacOf(m: Mac, f: Frame, data: bytes): (r: bytes)
    requires FrameOk(f) && |data| < Limit(2)
    ensures MacOk(m) ==> |r| == m.size
  {
    m.f(Aad(f, |data|) + data)
  }

  // Padding

  /** _get_pad */
  function GetPad(n: nat, size: nat): (r: bytes)
    requires 0 < size <= 256
    ensures |r| == size - n % size
  {
    var p: byte := size - 1 - n % size;
    seq(p + 1, _ => p)
  }

  lemma PadFills(n: nat, size: nat)
    requires 0 < size <= 256
    ensures Full(n + |GetPad(n, size)|, size)
  {
    WholeMod(n, size);
    var w := Whole(n, size);
    WholeFull(n, size);
    WholeMore(w, size, size);
    assert n + |GetPad(n, size)| == w + size;
  }

  /** Padded data is what the constant-time removal accepts, and it strips what was added. */
  lemma PadWellFormed(data: bytes, n: nat, size: nat, macSize: nat)
    requires 0 < size <= 256 && macSize <= |data|
    ensures CbcPadding.WellPadded(data + GetPad(n, size), macSize)
    ensures var d := data + GetPad(n, size); |d| - 1 - d[|d| - 1] == |data|
  {}

  // Feeding a context piece by piece

  /** After the pieces `fed`, the context has put out all whole blocks and holds the rest. */
  ghost predicate Streamed(b: Block, start: bytes, fed: bytes, out: bytes, chain: bytes, held: bytes)
    requires Inverse(b) && |start| == b.size
  {
    var n := Whole(|fed|, b.size);
    && Full(n, b.size) && out == Encrypt(b, start, fed[..n]) && held == fed[n..] && chain == Last(b, start, out)
  }

  /** What one call of update does. */
  ghost predicate Updated(b: Block, chain: bytes, held: bytes, data: bytes, out: bytes, chain': bytes, held': bytes)
    requires Inverse(b) && |chain| == b.size
  {
    var all := held + data;
    var n := Whole(|all|, b.size);
    && Full(n, b.size) && out == Encrypt(b, chain, all[..n]) && chain' == Last(b, chain, out) && held' == all[n..]
  }

  lemma CutBoth(fed: bytes, data: bytes, m: nat, n: nat)
    requires m <= |fed| && n <= |fed| - m + |data|
    ensures |fed + data| == m + |fed[m..] + data|
    ensures (fed + data)[..m + n] == fed[..m] + (fed[m..] + data)[..n]
    ensures (fed + data)[m + n..] == (fed[m..] + data)[n..]
  {
    assert fed + data == fed[..m] + (fed[m..] + data);
  }

  lemma StreamStep(b: Block, start: bytes, fed: bytes, out: bytes, chain: bytes, held: bytes, data: bytes,
                   o: bytes, chain': bytes, held': bytes)
    requires Inverse(b) && |start| == |chain| == b.size
    requires Streamed(b, start, fed, out, chain, held) && Updated(b, chain, held, data, o, chain', held')
    ensures Streamed(b, start, fed + data, out + o, chain', held')
  {
    hide Encrypt, Whole, Last;
    var all := held + data;
    var n, m := Whole(|all|, b.size), Whole(|fed|, b.size);
    WholeFull(|all|, b.size);
    WholeMore(m, |all|, b.size);
    WholeMore(m, n, b.size);
    var x, y := fed[..m], all[..n];
    CutBoth(fed, data, m, n);
    EncryptMore(b, start, x, y);
    LastMore(b, start, out, Encrypt(b, chain, y));
  }

  lemma StreamedBound(b: Block, start: bytes, fed: bytes, out: bytes, chain: bytes, held: bytes)
    requires Inverse(b) && |start| == b.size && Streamed(b, start, fed, out, chain, held)
    ensures |out| <= |fed|
  {}

  lemma LastMore(b: Block, start: bytes, x: bytes, y: bytes)
    requires b.size > 0 && |start| == b.size && Full(|x|, b.size) && Full(|y|, b.size) && Full(|x + y|, b.size)
    ensures Last(b, start, x + y) == Last(b, Last(b, start, x), y)
  {}

  /** An encryptor object of the cryptography library. */
  class Encryptor {
    const b: Block
    var chain: bytes
    var held: bytes

    ghost predicate Valid() reads this { Inverse(b) && |chain| == b.size && |held| < b.size }

    constructor (b: Block, iv: bytes)
      requires Inverse(b) && |iv| == b.size
      ensures Valid() && this.b == b && chain == iv && held == []
    {
      this.b, chain, held := b, iv, [];
    }

    /** CipherContext.update: whole blocks come out, a started one is held back. */
    method Update(data: bytes) returns (out: bytes)
      requires Valid()
      modifies this`chain, this`held
      ensures Valid()
      ensures Updated(b, old(chain), old(held), data, out, chain, held)
    {
      var all := held + data;
      var n := Whole(|all|, b.size);
      WholeFull(|all|, b.size);
      out := Encrypt(b, chain, all[..n]);
      chain, held := Last(b, chain, out), all[n..];
    }

    /** The loop of update_into calls that every CBC seal runs; the library refuses a call whose
        output buffer could be too small. Pieces or whole, the output is the same. */
    method UpdateAll(parts: seq<bytes>, room: nat) returns (r: Option<bytes>)
      requires Valid() && held == []
      modifies this`chain, this`held
      ensures Valid()
      ensures |Concat(parts)| + 2 * b.size <= room ==> r.Some?
      ensures r.Some? ==> Streamed(b, old(chain), Concat(parts), r.value, chain, held)
    {
      hide Streamed, Updated;
      var out: bytes := [];
      StreamStart(b, chain);
      for i := 0 to |parts|
        invariant Valid()
        invariant Streamed(b, old(chain), Concat(parts[..i]), out, chain, held)
      {
        ConcatNext(parts, i);
        ConcatBound(parts, i + 1);
        StreamedBound(b, old(chain), Concat(parts[..i]), out, chain, held);
        if |out| + |parts[i]| + b.size > room + 1 { return None; }
        ghost var was, kept := chain, held;
        var o := Update(parts[i]);
        StreamStep(b, old(chain), Concat(parts[..i]), out, was, kept, parts[i], o, chain, held);
        out := out + o;
      }
      assert parts[..|parts|] == parts;
      return Some(out);
    }
  }

  lemma StreamStart(b: Block, chain: bytes)
    requires Inverse(b) && |chain| == b.size
    ensures Streamed(b, chain, [], [], chain, [])
  {}

  lemma {:induction false} ConcatBound(parts: seq<bytes>, i: nat)
    requires i <= |parts|
    ensures |Concat(parts[..i])| <= |Concat(parts)|
    decreases |parts| - i
  {
    if i == |parts| { assert parts[..i] == parts; }
    else {
      ConcatBound(parts, i + 1);
      ConcatNext(parts, i);
    }
  }

  lemma ConcatNext(parts: seq<bytes>, i: nat)
    requires i < |parts|
    ensures Concat(parts[..i + 1]) == Concat(parts[..i]) + parts[i]
  {
    assert parts[..i + 1] == parts[..i] + [parts[i]];
    ConcatMore(parts[..i], parts[i]);
  }

  /** A decryptor object; records always hold whole blocks. */
  class Decryptor {
    const b: Block
    var chain: bytes

    ghost predicate Valid() reads this { Inverse(b) && |chain| == b.size }

    constructor (b: Block, iv: bytes)
      requires Inverse(b) && |iv| == b.size
      ensures Valid() && this.b == b && chain == iv
    {
      this.b, chain := b, iv;
    }

    /** `None` stands for output shorter than the input: a partial block at the end. */
    method Update(data: bytes) returns (out: Option<bytes>)
      requires Valid()
      modifies this`chain
      ensures Valid()
      ensures out.Some? <==> Full(|data|, b.size)
      ensures out.Some? ==> out.value == Decrypt(b, old(chain), data) && chain == Last(b, old(chain), data)
    {
      if !Full(|data|, b.size) { return None; }
      out := Some(Decrypt(b, chain, data));
      chain := Last(b, chain, data);
    }
  }
}
