/** The block cipher contexts behind src/simple_tls/tls/cipher.py: CBC chaining over an arbitrary
    keyed permutation, fed in pieces. */
module Cbc {
  import opened Bits
  import opened Wire

  /** A block cipher under one key. */
  datatype Block = Block(size: nat, enc: bytes -> bytes, dec: bytes -> bytes)

  ghost predicate Inverse(b: Block)
  {
    && b.size > 0
    && (forall x: bytes :: |x| == b.size ==> |b.enc(x)| == b.size)
    && (forall x: bytes :: |x| == b.size ==> |b.dec(x)| == b.size)
    && (forall x: bytes :: |x| == b.size ==> b.dec(b.enc(x)) == x)
  }

  function XorByte(x: byte, y: byte): (r: byte)
  {
    XorBelow(x, y, 8);
    assert Pow2(8) == 256 by { assert Pow2(4) == 16; }
    Xor(x, y)
  }

  lemma XorByteCancel(x: byte, y: byte)
    ensures XorByte(XorByte(x, y), y) == x
  {
    XorComm(x, y);
    XorCancel(y, x);
    XorComm(y, XorByte(x, y));
  }

  function XorBytes(x: bytes, y: bytes): (r: bytes)
    requires |x| == |y|
    ensures |r| == |x|
  {
    seq(|x|, i requires 0 <= i < |x| => XorByte(x[i], y[i]))
  }

  lemma XorBytesCancel(x: bytes, y: bytes)
    requires |x| == |y|
    ensures XorBytes(XorBytes(x, y), y) == x
  {
    hide XorByte;
    forall i | 0 <= i < |x| ensures XorBytes(XorBytes(x, y), y)[i] == x[i] { XorByteCancel(x[i], y[i]); }
  }

  // Lengths in blocks

  /** The part of a length that fills blocks. */
  function Whole(n: nat, size: nat): (r: nat)
    requires size > 0
    ensures r <= n < r + size
  {
    if n < size then 0 else size + Whole(n - size, size)
  }

  predicate Full(n: nat, size: nat)
    requires size > 0
  {
    Whole(n, size) == n
  }

  lemma {:induction false} WholeMore(n: nat, m: nat, size: nat)
    requires size > 0 && Full(n, size)
    ensures Whole(n + m, size) == n + Whole(m, size)
  {
    if n >= size { WholeMore(n - size, m, size); }
  }

  lemma {:induction false} WholeFull(n: nat, size: nat)
    requires size > 0
    ensures Full(Whole(n, size), size)
  {
    if n >= size { WholeFull(n - size, size); }
  }

  /** What is left over is the remainder of the division. */
  lemma {:induction false} WholeMod(n: nat, size: nat)
    requires size > 0
    ensures n % size == n - Whole(n, size)
  {
    if n >= size {
      WholeMod(n - size, size);
      ModStep(n, size);
    }
  }

  lemma ModStep(n: nat, size: nat)
    requires size > 0 && n >= size
    ensures n % size == (n - size) % size
  {
    var q, r := (n - size) / size, (n - size) % size;
    assert n == (q + 1) * size + r;
    ModIs(n, size, q + 1, r);
  }

  lemma ModIs(n: int, size: int, q: int, r: int)
    requires size > 0 && 0 <= r < size && n == q * size + r
    ensures n % size == r
  {
    var k := n / size - q;
    assert k * size + n % size == r by { assert n == (n / size) * size + n % size; }
    Product(k, size);
  }

  lemma Product(k: int, size: int)
    requires size > 0
    ensures k >= 1 ==> k * size >= size
    ensures k <= -1 ==> k * size <= -size
  {}

  lemma FullRest(n: nat, size: nat)
    requires size > 0 && n > 0 && Full(n, size)
    ensures n >= size && Full(n - size, size)
  {}

  lemma Split(x: bytes, n: nat)
    requires n <= |x|
    ensures x == x[..n] + x[n..]
  {}

  // Chaining

  /** Whole blocks, each combined with the ciphertext block before it. */
  function Encrypt(b: Block, chain: bytes, data: bytes): (r: bytes)
    requires Inverse(b) && |chain| == b.size && Full(|data|, b.size)
    ensures |r| == |data|
    decreases |data|
  {
    if data == [] then [] else
    var c := b.enc(XorBytes(data[..b.size], chain));
    c + Encrypt(b, c, data[b.size..])
  }

  function Decrypt(b: Block, chain: bytes, data: bytes): (r: bytes)
    requires Inverse(b) && |chain| == b.size && Full(|data|, b.size)
    ensures |r| == |data|
    decreases |data|
  {
    if data == [] then [] else
    XorBytes(b.dec(data[..b.size]), chain) + Decrypt(b, data[..b.size], data[b.size..])
  }

  /** The block that the next one is combined with. */
  function Last(b: Block, chain: bytes, ciphertext: bytes): (r: bytes)
    requires b.size > 0 && |chain| == b.size && Full(|ciphertext|, b.size)
    ensures |r| == b.size
  {
    if ciphertext == [] then chain else ciphertext[|ciphertext| - b.size..]
  }

  lemma EncryptStep(b: Block, chain: bytes, x: bytes, rest: bytes)
    requires Inverse(b) && |chain| == |x| == b.size && Full(|rest|, b.size)
    ensures Full(|x + rest|, b.size)
    ensures var c := b.enc(XorBytes(x, chain)); Encrypt(b, chain, x + rest) == c + Encrypt(b, c, rest)
  {
    assert (x + rest)[..b.size] == x && (x + rest)[b.size..] == rest;
  }

  lemma DecryptStep(b: Block, chain: bytes, x: bytes, rest: bytes)
    requires Inverse(b) && |chain| == |x| == b.size && Full(|rest|, b.size)
    ensures Full(|x + rest|, b.size)
    ensures Decrypt(b, chain, x + rest) == XorBytes(b.dec(x), chain) + Decrypt(b, x, rest)
  {
    assert (x + rest)[..b.size] == x && (x + rest)[b.size..] == rest;
  }

  /** Decryption in step with encryption gives the plaintext back. */
  lemma {:induction false} DecryptEncrypt(b: Block, chain: bytes, data: bytes)
    requires Inverse(b) && |chain| == b.size && Full(|data|, b.size)
    ensures Decrypt(b, chain, Encrypt(b, chain, data)) == data
    decreases |data|
  {
    if data != [] {
      var x, rest := data[..b.size], data[b.size..];
      var c := b.enc(XorBytes(x, chain));
      hide Encrypt, Decrypt, XorBytes;
      assert data == x + rest;
      EncryptStep(b, chain, x, rest);
      DecryptStep(b, chain, c, Encrypt(b, c, rest));
      DecryptEncrypt(b, c, rest);
      XorBytesCancel(x, chain);
    }
  }

  lemma EncryptNone(b: Block, chain: bytes, x: bytes, y: bytes)
    requires Inverse(b) && |chain| == b.size && x == [] && Full(|x|, b.size) && Full(|y|, b.size)
    ensures x + y == y && Encrypt(b, chain, x) == [] && Last(b, chain, []) == chain
    ensures [] + Encrypt(b, chain, y) == Encrypt(b, chain, y)
  {}

  /** Encrypting in two goes, the second from where the first ended. */
  lemma {:induction false} EncryptMore(b: Block, chain: bytes, x: bytes, y: bytes)
    requires Inverse(b) && |chain| == b.size && Full(|x|, b.size) && Full(|y|, b.size)
    ensures Full(|x + y|, b.size)
    ensures Encrypt(b, chain, x + y) == Encrypt(b, chain, x) + Encrypt(b, Last(b, chain, Encrypt(b, chain, x)), y)
    decreases |x|
  {
    hide Encrypt, XorBytes, Last, Whole;
    WholeMore(|x|, |y|, b.size);
    if x == [] { EncryptNone(b, chain, x, y); }
    else {
      FullRest(|x|, b.size);
      var z, rest := x[..b.size], x[b.size..];
      var c := b.enc(XorBytes(z, chain));
      EncryptMore(b, c, rest, y);
      Split(x, b.size);
      Assoc(z, rest, y);
      EncryptStep(b, chain, z, rest);
      EncryptStep(b, chain, z, rest + y);
      var e := Encrypt(b, c, rest);
      LastAfter(b, chain, c, e);
      Assoc(c, e, Encrypt(b, Last(b, c, e), y));
    }
  }

  lemma LastAfter(b: Block, chain: bytes, c: bytes, e: bytes)
    requires b.size > 0 && |chain| == |c| == b.size && Full(|e|, b.size)
    ensures Full(|c + e|, b.size) && Last(b, chain, c + e) == Last(b, c, e)
  {}

  lemma {:induction false} DecryptMore(b: Block, chain: bytes, x: bytes, y: bytes)
    requires Inverse(b) && |chain| == b.size && Full(|x|, b.size) && Full(|y|, b.size)
    ensures Full(|x + y|, b.size)
    ensures Decrypt(b, chain, x + y) == Decrypt(b, chain, x) + Decrypt(b, Last(b, chain, x), y)
    decreases |x|
  {
    WholeMore(|x|, |y|, b.size);
    if x == [] {
      assert x + y == y && Decrypt(b, chain, x) == [];
    } else {
      FullRest(|x|, b.size);
      var z, rest := x[..b.size], x[b.size..];
      hide Decrypt, XorBytes, Last, Whole;
      DecryptMore(b, z, rest, y);
      Split(x, b.size);
      Assoc(z, rest, y);
      DecryptStep(b, chain, z, rest);
      DecryptStep(b, chain, z, rest + y);
      LastAfter(b, chain, z, rest);
      Assoc(XorBytes(b.dec(z), chain), Decrypt(b, z, rest), Decrypt(b, Last(b, z, rest), y));
    }
  }
}
