/** ext/utils.c: branch-free masks and the constant-time removal of CBC padding and MAC.

    `w` is SHIFT_AMOUNT, the index of a word's top bit (63 or 31 in the C code), so every
    statement below holds for each width of `size_t`. */
module ConstantTime {
  import opened Bits

  predicate Word(w: nat, a: int) { 0 <= a < Pow2(w + 1) }

  function Ones(w: nat): (r: nat) { Pow2(w + 1) - 1 }

  function Not(w: nat, a: nat): (r: nat)
    requires Word(w, a)
  {
    Pow2(w + 1) - 1 - a
  }

  /** `size_t` subtraction, which wraps around. */
  function Sub(w: nat, a: nat, b: nat): (r: nat)
    requires Word(w, a) && Word(w, b)
    ensures Word(w, r)
  {
    if b <= a then a - b else Pow2(w + 1) - (b - a)
  }

  lemma XorWord(w: nat, a: nat, b: nat)
    requires Word(w, a) && Word(w, b)
    ensures Word(w, Xor(a, b))
  {
    XorBelow(a, b, w + 1);
  }

  lemma OrWord(w: nat, a: nat, b: nat)
    requires Word(w, a) && Word(w, b)
    ensures Word(w, Or(a, b))
  {
    OrBelow(a, b, w + 1);
  }

  /** ct_msb_s copies the top bit into every bit. */
  function Msb(w: nat, v: nat): (r: nat)
    requires Word(w, v)
    ensures r == if v >= Pow2(w) then Ones(w) else 0
  {
    ShrTop(v, w);
    Sub(w, 0, Shr(v, w))
  }

  /** The word whose top bit decides ct_lt_s. */
  function LtWord(w: nat, a: nat, b: nat): (r: nat)
    requires Word(w, a) && Word(w, b)
    ensures Word(w, r)
  {
    XorWord(w, a, b);
    XorWord(w, Sub(w, a, b), b);
    OrWord(w, Xor(a, b), Xor(Sub(w, a, b), b));
    XorWord(w, a, Or(Xor(a, b), Xor(Sub(w, a, b), b)));
    Xor(a, Or(Xor(a, b), Xor(Sub(w, a, b), b)))
  }

  lemma LtWordTop(w: nat, a: nat, b: nat)
    requires Word(w, a) && Word(w, b)
    ensures LtWord(w, a, b) >= Pow2(w) <==> a < b
  {
    hide Xor, Or;
    var d := Sub(w, a, b);
    ShrTop(a, w); ShrTop(b, w); ShrTop(d, w); ShrTop(LtWord(w, a, b), w);
    ShrXor(a, b, w); ShrXor(d, b, w);
    ShrOr(Xor(a, b), Xor(d, b), w);
    ShrXor(a, Or(Xor(a, b), Xor(d, b)), w);
    LtBit(Shr(a, w), Shr(b, w), Shr(d, w));
  }

  /** The formula on single bits. */
  lemma LtBit(a: nat, b: nat, d: nat)
    requires a < 2 && b < 2 && d < 2
    ensures Xor(a, Or(Xor(a, b), Xor(d, b))) == if a == b then d else b
  {}

  function Lt(w: nat, a: nat, b: nat): (r: nat)
    requires Word(w, a) && Word(w, b)
    ensures r == if a < b then Ones(w) else 0
  {
    LtWordTop(w, a, b);
    Msb(w, LtWord(w, a, b))
  }

  function Gt(w: nat, a: nat, b: nat): (r: nat)
    requires Word(w, a) && Word(w, b)
    ensures r == if a > b then Ones(w) else 0
  {
    Lt(w, b, a)
  }

  function Le(w: nat, a: nat, b: nat): (r: nat)
    requires Word(w, a) && Word(w, b)
    ensures r == if a <= b then Ones(w) else 0
  {
    Not(w, Gt(w, a, b))
  }

  function IsZero(w: nat, v: nat): (r: nat)
    requires Word(w, v)
    ensures r == if v == 0 then Ones(w) else 0
  {
    var x := And(Not(w, v), Sub(w, v, 1));
    assert x >= Pow2(w) <==> v == 0 by {
      ShrAnd(Not(w, v), Sub(w, v, 1), w);
      ShrTop(Not(w, v), w); ShrTop(Sub(w, v, 1), w); ShrTop(x, w);
    }
    Msb(w, x)
  }

  function Eq(w: nat, a: nat, b: nat): (r: nat)
    requires Word(w, a) && Word(w, b)
    ensures r == if a == b then Ones(w) else 0
  {
    XorWord(w, a, b);
    IsZero(w, Xor(a, b))
  }

  /** ct_select_u8; the `size_t` mask is truncated to an octet on the call. */
  function SelectU8(mask: byte, a: byte, b: byte): (r: nat)
    ensures mask == 0 ==> r == b
    ensures mask == 255 ==> r == a
    ensures r < 256
  {
    assert Pow2(8) == 256;
    AndOnes(a, 8); AndOnes(b, 8);
    OrBelow(And(mask, a), And(255 - mask, b), 8);
    Or(And(mask, a), And(255 - mask, b))
  }
}

module CbcPadding {
  import opened Bits
  import CT = ConstantTime

  const MAX_PADDING_SIZE := 256
  const MAX_MAC_SIZE := 64

  /** What the routine is for: the last octet `p` says how long the padding is, the
      padding and a MAC fit, and every one of the `p + 1` padding octets holds `p`. */
  predicate WellPadded(data: bytes, macSize: nat)
  {
    && |data| > 0
    && var p := data[|data| - 1];
       && p + 1 + macSize <= |data|
       && forall k :: |data| - 1 - p <= k < |data| ==> data[k] == p
  }

  function Overhead(blockSize: nat, macSize: nat): nat
  {
    (if blockSize == 1 then 0 else 1) + macSize
  }

  /** The padding scan of cbc_remove_pad_and_mac: zero exactly for good padding, and
      all ones when the padding length itself is impossible. */
  method PaddingMask(w: nat, data: bytes, macSize: nat) returns (mask: nat)
    requires w >= 8 && CT.Word(w, |data|)
    requires macSize <= MAX_MAC_SIZE && macSize + 1 <= |data|
    ensures CT.Word(w, mask)
    ensures mask == 0 <==> WellPadded(data, macSize)
    ensures data[|data| - 1] + 1 + macSize > |data| ==> mask == CT.Ones(w)
  {
    OctetIsWord(w);
    var n := |data|;
    var padLen: nat := data[n - 1];
    var maxPad := n - (1 + macSize);
    mask := Or(0, CT.Gt(w, padLen, maxPad));
    var scanBound := if n < MAX_PADDING_SIZE then n else MAX_PADDING_SIZE;
    var i := 0;
    while i < scanBound
      invariant 0 <= i <= scanBound
      invariant CT.Word(w, mask)
      invariant padLen > maxPad ==> mask == CT.Ones(w)
      invariant mask == 0 <==>
                padLen <= maxPad && forall k :: n - i <= k < n && n - 1 - k <= padLen ==> data[k] == padLen
    {
      var within := CT.Le(w, i, padLen);
      var diff := Xor(data[n - 1 - i], padLen);
      CT.XorWord(w, data[n - 1 - i], padLen);
      AndOnes(diff, w + 1);
      var bad := And(diff, within);
      assert bad == if i <= padLen then diff else 0;
      CT.OrWord(w, mask, bad);
      mask := Or(mask, bad);
      i := i + 1;
    }
  }

  lemma OctetIsWord(w: nat)
    requires w >= 8
    ensures forall b: byte :: CT.Word(w, b)
    ensures Pow2(w + 1) >= 512 && Pow2(w + 1) % 256 == 0
  {
    if w == 8 { assert Pow2(9) == 2 * Pow2(8) == 512; } else { OctetIsWord(w - 1); }
  }

  /** The last octet when there is padding, cut to zero by a set mask. */
  function MacStart(w: nat, data: bytes, blockSize: nat, macSize: nat, mask: nat): (r: nat)
    requires w >= 8 && CT.Word(w, mask) && Overhead(blockSize, macSize) <= |data|
    requires macSize <= MAX_MAC_SIZE
    requires blockSize > 1 && data[|data| - 1] + 1 + macSize > |data| ==> mask == CT.Ones(w)
    ensures r + macSize <= |data| <= r + MAX_PADDING_SIZE + MAX_MAC_SIZE
    ensures mask == 0 && blockSize > 1 ==> r == |data| - 1 - data[|data| - 1] - macSize
    ensures blockSize <= 1 ==> r == |data| - macSize
    ensures mask == CT.Ones(w) && blockSize > 1 ==> r == |data| - 1 - macSize
  {
    OctetIsWord(w);
    var last: nat := if blockSize > 1 then data[|data| - 1] else 0;
    AndOnes(last, w + 1);
    var padLen := And(last, CT.Not(w, mask));
    |data| - padLen - (if blockSize > 1 then 1 else 0) - macSize
  }

  /** cbc_get_mac: the MAC position and the fixed-window scan that copies the MAC out. */
  method GetMac(w: nat, data: bytes, blockSize: nat, macSize: nat, randmac: bytes, mac: array<byte>, mask: nat)
    returns (rv: int, dataLen: nat)
    requires w >= 8 && CT.Word(w, |data|) && CT.Word(w, mask)
    requires macSize <= MAX_MAC_SIZE && Overhead(blockSize, macSize) <= |data|
    requires |randmac| == MAX_MAC_SIZE && mac.Length == MAX_MAC_SIZE
    requires blockSize > 1 && data[|data| - 1] + 1 + macSize > |data| ==> mask == CT.Ones(w)
    modifies mac
    ensures rv == if macSize == 0 && mask != 0 then 0 else 1
    ensures dataLen == MacStart(w, data, blockSize, macSize, mask)
    ensures mask == 0 ==> mac[..macSize] == data[dataLen..dataLen + macSize]
    ensures mask == CT.Ones(w) ==> mac[..macSize] == randmac[..macSize]
    ensures mac[macSize..] == old(mac[macSize..])
  {
    var macStart := MacStart(w, data, blockSize, macSize, mask);
    dataLen := macStart;
    if macSize == 0 {
      return if mask == 0 then 1 else 0, dataLen;
    }
    var window := MAX_PADDING_SIZE + MAX_MAC_SIZE;
    var scanStart := if |data| > window then |data| - window else 0;
    assert mask == CT.Ones(w) ==> mask % 256 == 255 by { OctetIsWord(w); }
    var i := 0;
    while i < macSize
      invariant 0 <= i <= macSize
      invariant mask == 0 ==> forall k :: 0 <= k < i ==> mac[k] == data[macStart + k]
      invariant mask == CT.Ones(w) ==> forall k :: 0 <= k < i ==> mac[k] == randmac[k]
      invariant forall k :: macSize <= k < mac.Length ==> mac[k] == old(mac[k])
    {
      var extracted: byte := ScanFor(w, data, scanStart, macStart + i);
      mac[i] := CT.SelectU8(mask % 256, randmac[i], extracted);
      i := i + 1;
    }
    rv := 1;
  }

  /** The inner scan of cbc_get_mac: one octet gathered by comparing every index. */
  method ScanFor(w: nat, data: bytes, scanStart: nat, target: nat) returns (extracted: byte)
    requires w >= 8 && CT.Word(w, |data|) && scanStart <= target < |data|
    ensures extracted == data[target]
  {
    OctetIsWord(w);
    var acc: nat := 0;
    var j := scanStart;
    while j < |data|
      invariant scanStart <= j <= |data|
      invariant acc == if target < j then data[target] else 0
    {
      AndOnes(data[j], w + 1);
      acc := Or(acc, And(data[j], CT.Eq(w, j, target)));
      j := j + 1;
    }
    extracted := acc;
  }

  /** cbc_remove_pad_and_mac. `rv` is -1 for a MAC too large, 0 for publicly invalid data. */
  method RemovePadAndMac(w: nat, data: bytes, blockSize: nat, macSize: nat, randmac: bytes, mac: array<byte>)
    returns (rv: int, dataLen: nat)
    requires w >= 8 && CT.Word(w, |data|)
    requires |randmac| == MAX_MAC_SIZE && mac.Length == MAX_MAC_SIZE
    modifies mac
    ensures -1 <= rv <= 1 && (rv == -1 <==> macSize > MAX_MAC_SIZE)
    ensures rv == 0 <==>
            && macSize <= MAX_MAC_SIZE
            && (|| Overhead(blockSize, macSize) > |data|
                || (macSize == 0 && blockSize > 1 && !WellPadded(data, 0)))
    ensures rv == 1 ==>
              && dataLen + macSize <= |data| <= dataLen + MAX_PADDING_SIZE + MAX_MAC_SIZE
    ensures rv == 1 && blockSize > 1 && WellPadded(data, macSize) ==>
              && dataLen == |data| - 1 - data[|data| - 1] - macSize
              && mac[..macSize] == data[dataLen..dataLen + macSize]
    ensures rv == 1 && blockSize == 1 ==>
              && dataLen == |data| - macSize
              && mac[..macSize] == data[dataLen..]
    ensures rv == 1 && blockSize > 1 && data[|data| - 1] + 1 + macSize > |data| ==>
              mac[..macSize] == randmac[..macSize]
  {
    dataLen := |data|;
    if macSize > MAX_MAC_SIZE { return -1, dataLen; }
    if Overhead(blockSize, macSize) > |data| { return 0, dataLen; }
    var mask := 0;
    if blockSize > 1 {
      mask := PaddingMask(w, data, macSize);
    }
    rv, dataLen := GetMac(w, data, blockSize, macSize, randmac, mac, mask);
  }
}
