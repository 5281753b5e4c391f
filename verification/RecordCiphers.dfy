/** The seal and open methods of src/simple_tls/tls/cipher.py, mode by mode. */
module BlockRecords {
  import opened Bits
  import opened Wire
  import opened Cbc
  import opened CipherParts
  import CbcPadding
  import CT = ConstantTime

  /** What the constructor of TLSCipher fixes for a CBC suite: `iv` is the random block that
      TLS 1.1 and later put in front, and empty before. */
  datatype Suite = Suite(b: Block, mac: Mac, iv: bytes)

  ghost predicate SuiteOk(s: Suite)
  {
    && Inverse(s.b) && 1 < s.b.size <= 16 && MacOk(s.mac)
    && (s.iv == [] || |s.iv| == s.b.size)
  }

  function MaxOverhead(s: Suite): nat { s.b.size + s.mac.size + |s.iv| }

  /** ciphertext_length of a block cipher. */
  function CiphertextLength(s: Suite, etm: bool, n: nat): (r: nat)
    requires s.b.size > 0
  {
    var pad := if etm then n else n + s.mac.size;
    |s.iv| + (pad + (s.b.size - pad % s.b.size)) + (if etm then s.mac.size else 0)
  }

  /** What _mac_then_encrypt feeds to the cipher. */
  function MteParts(s: Suite, f: Frame, p: bytes): (r: seq<bytes>)
    requires 0 < s.b.size <= 256 && FrameOk(f) && |p| < Limit(2)
  {
    var m := MacOf(s.mac, f, p);
    [s.iv, p, m, GetPad(|s.iv| + |p| + |m|, s.b.size)]
  }

  function EtmParts(s: Suite, p: bytes): (r: seq<bytes>)
    requires 0 < s.b.size <= 256
  {
    [s.iv, p, GetPad(|p|, s.b.size)]
  }

  lemma Concat3(x: bytes, y: bytes, z: bytes)
    ensures Concat([x, y, z]) == x + y + z
  {
    assert Concat([x]) == x + Concat([x][1..]) == x;
    ConcatMore([x], y);
    assert [x, y] + [z] == [x, y, z] && [x] + [y] == [x, y];
    ConcatMore([x, y], z);
  }

  lemma Concat4(x: bytes, y: bytes, z: bytes, u: bytes)
    ensures Concat([x, y, z, u]) == x + y + z + u
  {
    Concat3(x, y, z);
    assert [x, y, z] + [u] == [x, y, z, u];
    ConcatMore([x, y, z], u);
  }

  lemma IvFull(s: Suite)
    requires SuiteOk(s)
    ensures Full(|s.iv|, s.b.size)
  {}

  /** Both layouts fill whole blocks, and their length is the one predicted. */
  lemma MteShape(s: Suite, f: Frame, p: bytes)
    requires SuiteOk(s) && FrameOk(f) && |p| < Limit(2)
    ensures var body := Concat(MteParts(s, f, p));
            && body == s.iv + p + MacOf(s.mac, f, p) + GetPad(|s.iv| + |p| + s.mac.size, s.b.size)
            && Full(|body|, s.b.size) && |body| == CiphertextLength(s, false, |p|)
  {
    hide MacOf, GetPad, CiphertextLength, Whole, Concat, Inverse, MacOk;
    var m := MacOf(s.mac, f, p);
    var n := |p| + s.mac.size;
    Concat4(s.iv, p, m, GetPad(|s.iv| + n, s.b.size));
    PadFills(|s.iv| + n, s.b.size);
    MteLength(s, |p|);
  }

  lemma MteLength(s: Suite, n: nat)
    requires SuiteOk(s)
    ensures |s.iv| + n + s.mac.size + |GetPad(|s.iv| + n + s.mac.size, s.b.size)| == CiphertextLength(s, false, n)
  {
    IvMod(s, n + s.mac.size);
  }

  lemma EtmShape(s: Suite, p: bytes)
    requires SuiteOk(s)
    ensures var body := Concat(EtmParts(s, p));
            && body == s.iv + p + GetPad(|p|, s.b.size)
            && Full(|body|, s.b.size) && |body| + s.mac.size == CiphertextLength(s, true, |p|)
  {
    hide GetPad, Concat, Inverse, MacOk, Whole;
    Concat3(s.iv, p, GetPad(|p|, s.b.size));
    PadFills(|p|, s.b.size);
    IvFull(s);
    WholeMore(|s.iv|, |p| + |GetPad(|p|, s.b.size)|, s.b.size);
  }

  /** The block in front does not change the padding. */
  lemma IvMod(s: Suite, n: nat)
    requires SuiteOk(s)
    ensures (|s.iv| + n) % s.b.size == n % s.b.size
  {
    IvFull(s);
    WholeMore(|s.iv|, n, s.b.size);
    WholeMod(n, s.b.size);
    WholeMod(|s.iv| + n, s.b.size);
  }

  lemma AllStreamed(b: Block, start: bytes, fed: bytes, out: bytes, chain: bytes, held: bytes)
    requires Inverse(b) && |start| == b.size && Streamed(b, start, fed, out, chain, held) && Full(|fed|, b.size)
    ensures out == Encrypt(b, start, fed) && held == [] && chain == Last(b, start, out)
  {
    assert fed[..|fed|] == fed;
  }

  /** _mac_then_encrypt */
  method SealMte(e: Encryptor, s: Suite, f: Frame, p: bytes, room: nat) returns (r: Option<bytes>)
    requires SuiteOk(s) && e.b == s.b && e.Valid() && e.held == [] && FrameOk(f) && |p| < Limit(2)
    modifies e`chain, e`held
    ensures e.Valid()
    ensures |p| + MaxOverhead(s) + 2 * s.b.size <= room ==> r.Some?
    ensures r.Some? ==>
      && Full(|Concat(MteParts(s, f, p))|, s.b.size)
      && r.value == Encrypt(s.b, old(e.chain), Concat(MteParts(s, f, p)))
      && |r.value| == CiphertextLength(s, false, |p|) <= room
      && e.chain == Last(s.b, old(e.chain), r.value) && e.held == []
  {
    hide MteParts, Concat, Streamed, Encrypt;
    MteShape(s, f, p);
    MteRoom(s, |p|);
    if room < |p| + MaxOverhead(s) { return None; }
    ghost var start := e.chain;
    r := e.UpdateAll(MteParts(s, f, p), room);
    if r.Some? { AllStreamed(s.b, start, Concat(MteParts(s, f, p)), r.value, e.chain, e.held); }
  }

  lemma MteRoom(s: Suite, n: nat)
    requires SuiteOk(s)
    ensures CiphertextLength(s, false, n) <= n + MaxOverhead(s) && CiphertextLength(s, true, n) <= n + MaxOverhead(s)
  {}

  /** _encrypt_then_mac */
  method SealEtm(e: Encryptor, s: Suite, f: Frame, p: bytes, room: nat) returns (r: Option<bytes>)
    requires SuiteOk(s) && e.b == s.b && e.Valid() && e.held == [] && FrameOk(f)
             && CiphertextLength(s, true, |p|) < Limit(2)
    modifies e`chain, e`held
    ensures e.Valid()
    ensures |p| + MaxOverhead(s) + 2 * s.b.size <= room ==> r.Some?
    ensures r.Some? ==>
      && Full(|Concat(EtmParts(s, p))|, s.b.size)
      && var c := Encrypt(s.b, old(e.chain), Concat(EtmParts(s, p)));
         && |c| < Limit(2) && r.value == c + MacOf(s.mac, f, c)
         && |r.value| == CiphertextLength(s, true, |p|) <= room
         && e.chain == Last(s.b, old(e.chain), c) && e.held == []
  {
    hide EtmParts, Concat, Streamed, Encrypt;
    EtmShape(s, p);
    MteRoom(s, |p|);
    if room < |p| + MaxOverhead(s) { return None; }
    ghost var start := e.chain;
    r := e.UpdateAll(EtmParts(s, p), room);
    if r.Some? {
      AllStreamed(s.b, start, Concat(EtmParts(s, p)), r.value, e.chain, e.held);
      r := Some(r.value + MacOf(s.mac, f, r.value));
    }
  }

  // Opening

  /** `c` is what a peer with the same keys seals in the same place. */
  ghost predicate SealedMte(s: Suite, chain: bytes, f: Frame, p: bytes, c: bytes)
    requires SuiteOk(s) && |chain| == s.b.size && FrameOk(f)
  {
    && |p| < Limit(2) && Full(|Concat(MteParts(s, f, p))|, s.b.size)
    && c == Encrypt(s.b, chain, Concat(MteParts(s, f, p)))
  }

  /** Decrypting in two goes, as the open methods do, leaves everything behind the first block. */
  lemma DecryptBehindIv(b: Block, chain: bytes, iv: bytes, rest: bytes, c: bytes)
    requires Inverse(b) && |chain| == b.size && Full(|iv|, b.size) && Full(|iv + rest|, b.size)
    requires c == Encrypt(b, chain, iv + rest)
    ensures |c| == |iv| + |rest| && Full(|c[|iv|..]|, b.size)
    ensures Decrypt(b, Last(b, chain, c[..|iv|]), c[|iv|..]) == rest
    ensures Last(b, Last(b, chain, c[..|iv|]), c[|iv|..]) == Last(b, chain, c)
  {
    hide Encrypt, Decrypt, Whole;
    WholeMore(|iv|, |rest|, b.size);
    DecryptEncrypt(b, chain, iv + rest);
    var x, y := c[..|iv|], c[|iv|..];
    assert c == x + y;
    DecryptMore(b, chain, x, y);
    LastMore(b, chain, x, y);
    var u, v := Decrypt(b, chain, x), Decrypt(b, Last(b, chain, x), y);
    assert u + v == iv + rest && |u| == |iv|;
    assert v == (u + v)[|u|..] && rest == (iv + rest)[|iv|..];
  }

  /** Behind the IV an honest record holds plaintext, MAC and padding, and strips to the first two. */
  lemma HonestMte(s: Suite, chain: bytes, f: Frame, p: bytes, c: bytes)
    requires SuiteOk(s) && |chain| == s.b.size && FrameOk(f) && SealedMte(s, chain, f, p, c)
    ensures |c| >= |s.iv| + s.mac.size && Full(|c[|s.iv|..]|, s.b.size) && Full(|c[..|s.iv|]|, s.b.size)
    ensures var d := Decrypt(s.b, Last(s.b, chain, c[..|s.iv|]), c[|s.iv|..]);
            && CbcPadding.WellPadded(d, s.mac.size) && |d| - 1 - d[|d| - 1] - s.mac.size == |p|
            && d[..|p|] == p && d[|p|..|p| + s.mac.size] == MacOf(s.mac, f, p)
    ensures Last(s.b, Last(s.b, chain, c[..|s.iv|]), c[|s.iv|..]) == Last(s.b, chain, c)
  {
    hide Encrypt, Decrypt, Whole, MteParts, Concat, MacOf, CiphertextLength;
    MteShape(s, f, p);
    IvFull(s);
    var m := MacOf(s.mac, f, p);
    var n := |s.iv| + |p| + s.mac.size;
    var pad := GetPad(n, s.b.size);
    var rest := (p + m) + pad;
    assert s.iv + p + m + pad == s.iv + rest;
    DecryptBehindIv(s.b, chain, s.iv, rest, c);
    PadWellFormed(p + m, n, s.b.size, s.mac.size);
    assert rest[..|p|] == p && rest[|p|..|p| + |m|] == m;
  }

  /** What decrypts behind the IV. */
  function Behind(s: Suite, chain: bytes, x: bytes): (d: bytes)
    requires SuiteOk(s) && |chain| == s.b.size && |x| >= |s.iv| && Full(|x[|s.iv|..]|, s.b.size)
    ensures |d| == |x| - |s.iv|
  {
    IvFull(s);
    Decrypt(s.b, Last(s.b, chain, x[..|s.iv|]), x[|s.iv|..])
  }

  /** A record whose padding is well-formed. */
  predicate MteReadable(s: Suite, chain: bytes, c: bytes)
    requires SuiteOk(s) && |chain| == s.b.size
  {
    |c| >= s.mac.size + |s.iv| && Full(|c[|s.iv|..]|, s.b.size)
      && CbcPadding.WellPadded(Behind(s, chain, c), s.mac.size)
  }

  /** It is accepted exactly if its MAC is right. */
  function MteText(s: Suite, chain: bytes, f: Frame, c: bytes): (r: Option<bytes>)
    requires SuiteOk(s) && |chain| == s.b.size && FrameOk(f) && |c| < Limit(2) && MteReadable(s, chain, c)
  {
    var d := Behind(s, chain, c);
    var n := |d| - 1 - d[|d| - 1] - s.mac.size;
    if d[n..n + s.mac.size] == MacOf(s.mac, f, d[..n]) then Some(d[..n]) else None
  }

  lemma ReadableLength(s: Suite, chain: bytes, c: bytes)
    requires SuiteOk(s) && |chain| == s.b.size
    ensures MteReadable(s, chain, c) ==> |c| >= s.mac.size + |s.iv| && Full(|c[|s.iv|..]|, s.b.size)
  {
    hide Behind, Whole, Inverse, MacOk, CbcPadding.WellPadded;
  }

  /** An honest record is readable, and its text is what was sealed; only the length of the IV matters. */
  lemma HonestText(s: Suite, t: Suite, chain: bytes, f: Frame, p: bytes, c: bytes)
    requires SuiteOk(s) && SuiteOk(t) && t.b == s.b && t.mac == s.mac && |t.iv| == |s.iv|
    requires |chain| == s.b.size && FrameOk(f) && SealedMte(t, chain, f, p, c) && |c| < Limit(2)
    ensures MteReadable(s, chain, c) && MteText(s, chain, f, c) == Some(p)
    ensures Full(|c[..|s.iv|]|, s.b.size) && Full(|c|, s.b.size)
    ensures Last(s.b, Last(s.b, chain, c[..|s.iv|]), c[|s.iv|..]) == Last(s.b, chain, c)
  {
    hide Encrypt, Decrypt, Whole, MteParts, Concat, MacOf, Inverse, MacOk, CbcPadding.WellPadded;
    HonestMte(t, chain, f, p, c);
  }

  lemma Opened(s: Suite, chain: bytes, f: Frame, c: bytes, d: bytes, r: Option<bytes>)
    requires SuiteOk(s) && |chain| == s.b.size && FrameOk(f) && |c| < Limit(2)
    requires |c| >= |s.iv| + s.mac.size && Full(|c[|s.iv|..]|, s.b.size) && Full(|c[..|s.iv|]|, s.b.size)
    requires d == Decrypt(s.b, Last(s.b, chain, c[..|s.iv|]), c[|s.iv|..])
    requires CbcPadding.WellPadded(d, s.mac.size) ==>
               var n := |d| - 1 - d[|d| - 1] - s.mac.size;
               r == if d[n..n + s.mac.size] == MacOf(s.mac, f, d[..n]) then Some(d[..n]) else None
    ensures MteReadable(s, chain, c) ==> r == MteText(s, chain, f, c)
  {
    hide Decrypt, Whole, MacOf, Inverse, MacOk, CbcPadding.WellPadded;
  }

  /** _decrypt_then_mac. What a peer with suite `t` sealed here from `p` comes back. */
  method OpenMte(d: Decryptor, s: Suite, f: Frame, c: bytes, room: nat, w: nat, randmac: bytes, ghost t: Suite,
                 ghost p: bytes)
    returns (r: Option<bytes>)
    requires SuiteOk(s) && d.b == s.b && d.Valid() && FrameOk(f)
    requires |c| < Limit(2) && w >= 8 && CT.Word(w, |c|) && |randmac| == CbcPadding.MAX_MAC_SIZE
    requires SuiteOk(t) && t.b == s.b && t.mac == s.mac && |t.iv| == |s.iv|
    modifies d`chain
    ensures d.Valid()
    ensures SealedMte(t, old(d.chain), f, p, c) && |c| + s.b.size <= room ==>
              r == Some(p) && d.chain == Last(s.b, old(d.chain), c)
    ensures MteReadable(s, old(d.chain), c) && |c| + s.b.size <= room ==> r == MteText(s, old(d.chain), f, c)
    ensures r.Some? ==> |c| + s.b.size <= room && |r.value| <= |c| - |s.iv|
  {
    hide Encrypt, Decrypt, Whole, MteParts, Concat, MacOf, SealedMte, Inverse, MacOk, MteReadable, MteText, Behind,
         CbcPadding.WellPadded;
    ghost var chain := d.chain;
    if SealedMte(t, chain, f, p, c) { HonestText(s, t, chain, f, p, c); }
    ReadableLength(s, chain, c);
    if room < |c| + s.b.size { return None; }
    if |c| < s.mac.size + |s.iv| { return None; }
    IvFull(s);
    var first := d.Update(c[..|s.iv|]);
    var plain := d.Update(c[|s.iv|..]);
    if plain.None? { return None; }
    WordLess(w, |c|, |plain.value|);
    r := Strip(s.mac, f, plain.value, s.b.size, s.mac.size, w, randmac);
    Opened(s, chain, f, c, plain.value, r);
  }

  lemma WordLess(w: nat, n: nat, k: nat)
    requires k <= n && CT.Word(w, n)
    ensures CT.Word(w, k)
  {}

  /** The removal in constant time and the comparison that follows it. */
  method Strip(m: Mac, f: Frame, data: bytes, size: nat, macSize: nat, w: nat, randmac: bytes)
    returns (r: Option<bytes>)
    requires MacOk(m) && macSize == m.size && FrameOk(f) && |data| < Limit(2)
    requires w >= 8 && CT.Word(w, |data|) && |randmac| == CbcPadding.MAX_MAC_SIZE
    ensures r.Some? ==> |r.value| <= |data| && r.value == data[..|r.value|]
    ensures size > 1 && CbcPadding.WellPadded(data, macSize) ==>
              var n := |data| - 1 - data[|data| - 1] - macSize;
              r == if data[n..n + macSize] == MacOf(m, f, data[..n]) then Some(data[..n]) else None
    ensures size == 1 && |data| < macSize ==> r.None?
    ensures size == 1 && |data| >= macSize ==>
              var n := |data| - macSize;
              r == if data[n..] == MacOf(m, f, data[..n]) then Some(data[..n]) else None
  {
    var mac := new byte[CbcPadding.MAX_MAC_SIZE](_ => 0);
    var rv, n := CbcPadding.RemovePadAndMac(w, data, size, macSize, randmac, mac);
    if rv != 1 { return None; }
    if mac[..macSize] != MacOf(m, f, data[..n]) { return None; }
    return Some(data[..n]);
  }

  ghost predicate SealedEtm(s: Suite, chain: bytes, f: Frame, p: bytes, c: bytes)
    requires SuiteOk(s) && |chain| == s.b.size && FrameOk(f)
  {
    && Full(|Concat(EtmParts(s, p))|, s.b.size)
    && var x := Encrypt(s.b, chain, Concat(EtmParts(s, p)));
       |x| < Limit(2) && c == x + MacOf(s.mac, f, x)
  }

  lemma HonestEtm(s: Suite, chain: bytes, f: Frame, p: bytes, c: bytes)
    requires SuiteOk(s) && |chain| == s.b.size && FrameOk(f) && SealedEtm(s, chain, f, p, c)
    ensures |c| >= |s.iv| + s.mac.size
    ensures var x := c[..|c| - s.mac.size];
            && |x| < Limit(2) && c[|c| - s.mac.size..] == MacOf(s.mac, f, x)
            && x == Encrypt(s.b, chain, Concat(EtmParts(s, p)))
            && Full(|x[|s.iv|..]|, s.b.size) && Full(|x[..|s.iv|]|, s.b.size)
            && var d := Decrypt(s.b, Last(s.b, chain, x[..|s.iv|]), x[|s.iv|..]);
               && CbcPadding.WellPadded(d, 0) && |d| - 1 - d[|d| - 1] == |p| && d[..|p|] == p
               && Last(s.b, Last(s.b, chain, x[..|s.iv|]), x[|s.iv|..]) == Last(s.b, chain, x)
  {
    hide Encrypt, Decrypt, Whole, EtmParts, Concat, MacOf, CiphertextLength, MacOk;
    EtmShape(s, p);
    IvFull(s);
    var x := Encrypt(s.b, chain, Concat(EtmParts(s, p)));
    assert |MacOf(s.mac, f, x)| == s.mac.size;
    assert c[..|c| - s.mac.size] == x && c[|c| - s.mac.size..] == MacOf(s.mac, f, x);
    var rest := p + GetPad(|p|, s.b.size);
    assert s.iv + p + GetPad(|p|, s.b.size) == s.iv + rest;
    DecryptBehindIv(s.b, chain, s.iv, rest, x);
    PadWellFormed(p, |p|, s.b.size, 0);
    assert rest[..|p|] == p;
  }

  lemma HonestEtmText(s: Suite, t: Suite, chain: bytes, f: Frame, p: bytes, c: bytes)
    requires SuiteOk(s) && SuiteOk(t) && t.b == s.b && t.mac == s.mac && |t.iv| == |s.iv|
    requires |chain| == s.b.size && FrameOk(f) && SealedEtm(t, chain, f, p, c) && |c| < Limit(2)
    ensures EtmText(s, chain, f, c) == Some(p) && |c| >= |s.iv| + s.mac.size
    ensures var x := c[..|c| - s.mac.size];
            && Full(|x[..|s.iv|]|, s.b.size) && Full(|x[|s.iv|..]|, s.b.size) && Full(|x|, s.b.size)
            && Last(s.b, Last(s.b, chain, x[..|s.iv|]), x[|s.iv|..]) == Last(s.b, chain, x)
            && x == Encrypt(s.b, chain, Concat(EtmParts(t, p)))
  {
    hide Encrypt, Decrypt, Whole, EtmParts, Concat, MacOf, Inverse, MacOk, CbcPadding.WellPadded, Last, SealedEtm;
    HonestEtm(t, chain, f, p, c);
    EtmShape(t, p);
  }

  /** What an encrypt-then-MAC record is opened to, if anything. */
  function EtmText(s: Suite, chain: bytes, f: Frame, c: bytes): (r: Option<bytes>)
    requires SuiteOk(s) && |chain| == s.b.size && FrameOk(f) && |c| < Limit(2)
    ensures r.Some? ==> |c| >= s.mac.size + |s.iv| && Full(|c| - s.mac.size - |s.iv|, s.b.size)
  {
    if |c| < s.mac.size + |s.iv| then None
    else
      var x := c[..|c| - s.mac.size];
      if c[|c| - s.mac.size..] != MacOf(s.mac, f, x) || !Full(|x[|s.iv|..]|, s.b.size) then None
      else
        var d := Behind(s, chain, x);
        if CbcPadding.WellPadded(d, 0) then Some(d[..|d| - 1 - d[|d| - 1]]) else None
  }

  lemma EtmRefused(s: Suite, chain: bytes, f: Frame, c: bytes)
    requires SuiteOk(s) && |chain| == s.b.size && FrameOk(f) && |c| < Limit(2)
    ensures EtmText(s, chain, f, c).Some? ==>
              && |c| >= s.mac.size + |s.iv| && c[|c| - s.mac.size..] == MacOf(s.mac, f, c[..|c| - s.mac.size])
              && Full(|c[..|c| - s.mac.size][|s.iv|..]|, s.b.size)
  {
    hide Behind, Whole, MacOf, Inverse, MacOk, CbcPadding.WellPadded;
  }

  lemma EtmOpened(s: Suite, chain: bytes, f: Frame, c: bytes, d: bytes)
    requires SuiteOk(s) && |chain| == s.b.size && FrameOk(f) && |c| < Limit(2) && |c| >= s.mac.size + |s.iv|
    requires var x := c[..|c| - s.mac.size];
             && c[|c| - s.mac.size..] == MacOf(s.mac, f, x) && Full(|x[|s.iv|..]|, s.b.size)
             && Full(|x[..|s.iv|]|, s.b.size) && d == Decrypt(s.b, Last(s.b, chain, x[..|s.iv|]), x[|s.iv|..])
    ensures EtmText(s, chain, f, c) == if CbcPadding.WellPadded(d, 0) then Some(d[..|d| - 1 - d[|d| - 1]]) else None
  {
    hide Decrypt, Whole, MacOf, Inverse, MacOk, CbcPadding.WellPadded, Last;
  }

  lemma EmptyUnpadded(d: bytes)
    ensures |d| == 0 ==> !CbcPadding.WellPadded(d, 0)
  {}

  /** _mac_then_decrypt. Nothing is decrypted before its MAC was checked, and what a peer with
      suite `t` sealed here from `p` comes back. */
  method OpenEtm(d: Decryptor, s: Suite, f: Frame, c: bytes, room: nat, w: nat, randmac: bytes, ghost t: Suite,
                 ghost p: bytes)
    returns (r: Option<bytes>)
    requires SuiteOk(s) && d.b == s.b && d.Valid() && FrameOk(f)
    requires |c| < Limit(2) && w >= 8 && CT.Word(w, |c|) && |randmac| == CbcPadding.MAX_MAC_SIZE
    requires SuiteOk(t) && t.b == s.b && t.mac == s.mac && |t.iv| == |s.iv|
    modifies d`chain
    ensures d.Valid()
    ensures SealedEtm(t, old(d.chain), f, p, c) && |c| + s.b.size <= room ==>
              r == Some(p) && d.chain == Last(s.b, old(d.chain), c[..|c| - s.mac.size])
    ensures |c| + s.b.size <= room ==> r == EtmText(s, old(d.chain), f, c)
    ensures r.Some? || d.chain != old(d.chain) ==>
              && |c| >= s.mac.size
              && c[|c| - s.mac.size..] == MacOf(s.mac, f, c[..|c| - s.mac.size])
  {
    hide Encrypt, Decrypt, Whole, EtmParts, Concat, MacOf, SealedEtm, Inverse, MacOk, EtmText, Behind, Last,
         CbcPadding.WellPadded;
    ghost var chain := d.chain;
    if SealedEtm(t, chain, f, p, c) { HonestEtmText(s, t, chain, f, p, c); }
    if room < |c| + s.b.size { return None; }
    EtmRefused(s, chain, f, c);
    if |c| < s.mac.size + |s.iv| { return None; }
    var x := c[..|c| - s.mac.size];
    if c[|c| - s.mac.size..] != MacOf(s.mac, f, x) { return None; }
    IvFull(s);
    var first := d.Update(x[..|s.iv|]);
    var plain := d.Update(x[|s.iv|..]);
    if plain.None? { return None; }
    EtmOpened(s, chain, f, c, plain.value);
    WordLess(w, |c|, |plain.value|);
    var mac := new byte[CbcPadding.MAX_MAC_SIZE](_ => 0);
    var rv, n := CbcPadding.RemovePadAndMac(w, plain.value, s.b.size, 0, randmac, mac);
    if rv != 1 { EmptyUnpadded(plain.value); return None; }
    return Some(plain.value[..n]);
  }
}

/** Stream suites: RC4, or no encryption at all. */
module StreamRecords {
  import opened Bits
  import opened Wire
  import opened Cbc
  import opened CipherParts
  import CbcPadding
  import CT = ConstantTime
  import BlockRecords

  /** Data combined with the key stream from a position on; `None` is the NULL cipher. */
  function Mask(ks: Option<nat -> byte>, pos: nat, data: bytes): (r: bytes)
    ensures |r| == |data|
  {
    if ks.None? then data else seq(|data|, i requires 0 <= i < |data| => XorByte(data[i], ks.value(pos + i)))
  }

  lemma MaskTwice(ks: Option<nat -> byte>, pos: nat, data: bytes)
    ensures Mask(ks, pos, Mask(ks, pos, data)) == data
  {
    hide XorByte;
    if ks.Some? {
      forall i | 0 <= i < |data| ensures Mask(ks, pos, Mask(ks, pos, data))[i] == data[i] {
        XorByteCancel(data[i], ks.value(pos + i));
      }
    }
  }

  lemma MaskMore(ks: Option<nat -> byte>, pos: nat, x: bytes, y: bytes)
    ensures Mask(ks, pos, x + y) == Mask(ks, pos, x) + Mask(ks, pos + |x|, y)
  {
    hide XorByte;
  }

  class KeyStream {
    const ks: Option<nat -> byte>
    var pos: nat

    constructor (ks: Option<nat -> byte>)
      ensures this.ks == ks && pos == 0
    {
      this.ks, pos := ks, 0;
    }

    method Update(data: bytes) returns (out: bytes)
      modifies this`pos
      ensures out == Mask(ks, old(pos), data) && pos == old(pos) + |data|
    {
      out := Mask(ks, pos, data);
      pos := pos + |data|;
    }

    /** _mac_then_encrypt_stream */
    method Seal(m: Mac, f: Frame, p: bytes, room: nat) returns (r: Option<bytes>)
      requires MacOk(m) && FrameOk(f) && |p| < Limit(2)
      modifies this`pos
      ensures r.Some? <==> |p| + m.size <= room
      ensures r.Some? ==> r.value == Mask(ks, old(pos), p + MacOf(m, f, p)) && |r.value| == |p| + m.size
      ensures pos == old(pos) + (if r.Some? then |p| + m.size else 0)
    {
      hide Mask, MacOf;
      if room < |p| + m.size { return None; }
      var mac := MacOf(m, f, p);
      MaskMore(ks, pos, p, mac);
      var x := Update(p);
      var y := Update(mac);
      return Some(x + y);
    }

    /** _decrypt_stream_then_mac: accepted is exactly what carries the right MAC at the end, so
        what a peer sealed at this position comes back. */
    method Open(m: Mac, f: Frame, c: bytes, room: nat, w: nat, randmac: bytes) returns (r: Option<bytes>)
      requires MacOk(m) && FrameOk(f) && |c| < Limit(2) && w >= 8 && CT.Word(w, |c|)
               && |randmac| == CbcPadding.MAX_MAC_SIZE
      modifies this`pos
      ensures forall p: bytes :: |c| <= room ==>
                (r == Some(p) <==> |p| < Limit(2) && c == Mask(ks, old(pos), p + MacOf(m, f, p)))
      ensures |c| <= room ==> pos == old(pos) + |c|
    {
      hide MacOf, Mask, MacOk;
      if room < |c| { return None; }
      ghost var start := pos;
      MaskTwice(ks, pos, c);
      var data := Update(c);
      r := BlockRecords.Strip(m, f, data, 1, m.size, w, randmac);
      forall p: bytes
        ensures r == Some(p) <==> |p| < Limit(2) && c == Mask(ks, start, p + MacOf(m, f, p))
      {
        OpenIff(ks, start, m, f, c, data, p, r);
      }
    }
  }

  lemma OpenIff(ks: Option<nat -> byte>, start: nat, m: Mac, f: Frame, c: bytes, data: bytes, p: bytes,
                r: Option<bytes>)
    requires MacOk(m) && FrameOk(f) && |c| < Limit(2) && data == Mask(ks, start, c) && c == Mask(ks, start, data)
    requires r.Some? ==> |r.value| <= |data| && r.value == data[..|r.value|]
    requires |data| >= m.size ==>
               var n := |data| - m.size;
               r == if data[n..] == MacOf(m, f, data[..n]) then Some(data[..n]) else None
    requires |data| < m.size ==> r.None?
    ensures r == Some(p) <==> |p| < Limit(2) && c == Mask(ks, start, p + MacOf(m, f, p))
  {
    hide MacOf, Mask, MacOk;
    if r == Some(p) {
      assert data == p + MacOf(m, f, p);
    }
    if |p| < Limit(2) && c == Mask(ks, start, p + MacOf(m, f, p)) {
      MaskTwice(ks, start, p + MacOf(m, f, p));
      assert data == p + MacOf(m, f, p);
      assert data[..|p|] == p && data[|p|..] == MacOf(m, f, p);
    }
  }
}

/** AEAD suites, of TLS 1.3 and before. */
module AeadRecords {
  import opened Bits
  import opened Wire
  import opened Cbc
  import opened CipherParts

  /** enc and dec take nonce, text and additional data. */
  datatype Aead = Aead(enc: (bytes, bytes, bytes) -> bytes, dec: (bytes, bytes, bytes) -> Option<bytes>, tag: nat)

  ghost predicate AeadOk(a: Aead)
  {
    && (forall n: bytes, p: bytes, d: bytes :: |a.enc(n, p, d)| == |p| + a.tag)
    && (forall n: bytes, p: bytes, d: bytes :: a.dec(n, a.enc(n, p, d), d) == Some(p))
  }

  /** `xor`: the sequence number is combined with a 12-octet IV and not sent; otherwise it
      follows a 4-octet one and leads the record. `headerAad` is TLS 1.3. */
  datatype Suite = Suite(a: Aead, fixed: bytes, xor: bool, headerAad: bool)

  ghost predicate SuiteOk(s: Suite)
  {
    AeadOk(s.a) && s.a.tag <= 16 && |s.fixed| == (if s.xor then 12 else 4) && (s.headerAad ==> s.xor)
  }

  function MaxOverhead(s: Suite): nat { s.a.tag + (if s.xor then 0 else 8) }

  /** The nonce of a record. */
  function Nonce(s: Suite, n: nat): (r: bytes)
    requires n < Limit(8) && |s.fixed| == (if s.xor then 12 else 4)
    ensures |r| == 12
  {
    if s.xor then XorBytes(ZeroBytes(4) + IntToBytes(n, 8), s.fixed) else s.fixed + IntToBytes(n, 8)
  }

  /** Different sequence numbers, different nonces. */
  lemma NoncesDiffer(s: Suite, n: nat, m: nat)
    requires |s.fixed| == (if s.xor then 12 else 4) && n < Limit(8) && m < Limit(8)
    ensures Nonce(s, n) == Nonce(s, m) <==> n == m
  {
    hide IntToBytes, XorBytes, Limit, BytesToInt;
    BytesOfInt(n, 8);
    BytesOfInt(m, 8);
    var x, y := IntToBytes(n, 8), IntToBytes(m, 8);
    if Nonce(s, n) == Nonce(s, m) {
      if s.xor {
        XorBytesCancel(ZeroBytes(4) + x, s.fixed);
        XorBytesCancel(ZeroBytes(4) + y, s.fixed);
        assert (ZeroBytes(4) + x)[4..] == x && (ZeroBytes(4) + y)[4..] == y;
      } else {
        assert (s.fixed + x)[4..] == x && (s.fixed + y)[4..] == y;
      }
    }
  }

  function AadFor(s: Suite, f: Frame, header: bytes, n: nat): bytes
    requires FrameOk(f) && n < Limit(2)
  {
    if s.headerAad then header else Aad(f, n)
  }

  /** _encrypt_aead; `None` is the buffer that is too small. */
  function Seal(s: Suite, f: Frame, header: bytes, p: bytes, room: nat): (r: Option<bytes>)
    requires SuiteOk(s) && FrameOk(f) && |p| < Limit(2)
    ensures r.Some? <==> |p| + MaxOverhead(s) <= room
    ensures r.Some? ==> |r.value| == |p| + MaxOverhead(s)
  {
    if room < |p| + MaxOverhead(s) then None else
    var c := s.a.enc(Nonce(s, f.seq_), p, AadFor(s, f, header, |p|));
    Some(if s.xor then c else IntToBytes(f.seq_, 8) + c)
  }

  /** _decrypt_aead; `None` is InvalidTag, or the buffer that is too small. */
  function Open(s: Suite, f: Frame, header: bytes, c: bytes, room: nat): (r: Option<bytes>)
    requires SuiteOk(s) && FrameOk(f) && |c| < Limit(2)
  {
    if room < |c| then None
    else if !s.headerAad && |c| < MaxOverhead(s) then None
    else
      var n := if s.headerAad then 0 else |c| - MaxOverhead(s);
      if s.xor then s.a.dec(Nonce(s, f.seq_), c, AadFor(s, f, header, n))
      else s.a.dec(s.fixed + c[..8], c[8..], AadFor(s, f, header, n))
  }

  /** A record opens to what was sealed, under the same sequence number, type and version. */
  lemma OpenSeal(s: Suite, f: Frame, header: bytes, p: bytes, room: nat, room': nat)
    requires SuiteOk(s) && FrameOk(f) && |p| < Limit(2) && |p| + MaxOverhead(s) < Limit(2)
    requires |p| + MaxOverhead(s) <= room && |p| + MaxOverhead(s) <= room'
    ensures Open(s, f, header, Seal(s, f, header, p, room).value, room') == Some(p)
  {
    hide IntToBytes, XorBytes, Limit, Aad;
    var c := Seal(s, f, header, p, room).value;
    if !s.xor {
      assert c[..8] == IntToBytes(f.seq_, 8);
      assert c[8..] == s.a.enc(Nonce(s, f.seq_), p, AadFor(s, f, header, |p|));
    }
  }
}
