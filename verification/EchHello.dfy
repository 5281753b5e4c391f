/** Encrypted ClientHello: the two extension builders, the compression of the inner hello on
    the client and its expansion on the server (src/simple_tls/tls/handshake_client.py and
    src/simple_tls/tls/handshake_server.py). */
module ExtensionLists {
  import opened Bits
  import opened Wire
  import opened Messages

  function TypesOf(s: seq<Ext>): set<nat> { set e | e in s :: e.0 }

  /** Extensions.find: the first body of that type. */
  function Find(s: seq<Ext>, t: nat): (r: Option<bytes>)
    ensures r.Some? ==> (t, r.value) in s
    ensures r.None? ==> t !in TypesOf(s)
  {
    if s == [] then None else if s[0].0 == t then Some(s[0].1) else Find(s[1..], t)
  }

  /** Extensions.replace; the ValueError for a missing type is `None`. */
  function Replace(s: seq<Ext>, t: nat, body: bytes): (r: Option<seq<Ext>>)
    ensures r.None? <==> t !in TypesOf(s)
    ensures r.Some? ==> |r.value| == |s| && Find(r.value, t) == Some(body)
    ensures r.Some? ==> forall i :: 0 <= i < |s| ==> r.value[i].0 == s[i].0
  {
    if s == [] then None
    else if s[0].0 == t then Some([(t, body)] + s[1..])
    else match Replace(s[1..], t, body) case None => None case Some(x) => Some([s[0]] + x)
  }

  /** Only the last of two replacements is seen, and putting the old body back undoes one. */
  lemma {:induction false} ReplaceTwice(s: seq<Ext>, t: nat, a: bytes, b: bytes)
    requires t in TypesOf(s)
    ensures Replace(Replace(s, t, a).value, t, b) == Replace(s, t, b)
    ensures Find(s, t) == Some(b) ==> Replace(s, t, b) == Some(s)
  {
    if s[0].0 == t {
      assert ([(t, a)] + s[1..])[1..] == s[1..];
      assert [s[0]] + s[1..] == s;
    } else {
      assert t in TypesOf(s[1..]);
      ReplaceTwice(s[1..], t, a, b);
      var x := Replace(s[1..], t, a).value;
      assert ([s[0]] + x)[1..] == x && ([s[0]] + x)[0] == s[0];
      assert [s[0]] + s[1..] == s;
    }
  }

  lemma {:induction false} FindUnique(s: seq<Ext>, e: Ext)
    requires UniqueTypes(s) && e in s
    ensures Find(s, e.0) == Some(e.1)
  {
    if s[0] != e {
      assert s[0].0 != e.0;
      FindUnique(s[1..], e);
    }
  }

  lemma UniqueSnoc(s: seq<Ext>, e: Ext)
    requires UniqueTypes(s) && e.0 !in TypesOf(s)
    ensures UniqueTypes(s + [e]) && UniqueTypes([e] + s)
    ensures TypesOf(s + [e]) == TypesOf(s) + {e.0} == TypesOf([e] + s)
  {
    forall x | x in TypesOf(s) + {e.0} ensures x in TypesOf(s + [e]) && x in TypesOf([e] + s) {
      if x == e.0 {
        assert e in s + [e] && e in [e] + s;
      } else {
        var y :| y in s && y.0 == x;
        assert y in s + [e] && y in [e] + s;
      }
    }
    forall i | 0 <= i < |s| ensures s[i].0 != e.0 { assert s[i] in s; }
  }

  // Optional extensions, one slot per type

  datatype Slot = Slot(typ: nat, body: Option<bytes>)

  function Present(slots: seq<Slot>): (r: seq<Ext>)
  {
    if slots == [] then [] else
    (if slots[0].body.Some? then [(slots[0].typ, slots[0].body.value)] else []) + Present(slots[1..])
  }

  lemma {:induction false} PresentMember(slots: seq<Slot>, e: Ext)
    ensures e in Present(slots) <==> Slot(e.0, Some(e.1)) in slots
  {
    if slots != [] { PresentMember(slots[1..], e); }
  }

  lemma {:induction false} PresentUnique(slots: seq<Slot>)
    requires forall i, j :: 0 <= i < j < |slots| ==> slots[i].typ != slots[j].typ
    ensures UniqueTypes(Present(slots))
    ensures forall t :: t in TypesOf(Present(slots)) ==> exists i :: 0 <= i < |slots| && slots[i].typ == t
  {
    if slots != [] {
      PresentUnique(slots[1..]);
      var rest := Present(slots[1..]);
      assert forall e :: e in rest ==> e.0 in TypesOf(rest);
      forall t | t in TypesOf(rest) ensures exists i :: 1 <= i < |slots| && slots[i].typ == t {
        var i :| 0 <= i < |slots[1..]| && slots[1..][i].typ == t;
        assert slots[i + 1].typ == t;
      }
      if slots[0].body.Some? {
        UniqueSnoc(rest, (slots[0].typ, slots[0].body.value));
      } else {
        assert [] + rest == rest;
      }
    }
  }

  // list.sort with a key

  function Insert(rank: nat -> nat, e: Ext, s: seq<Ext>): (r: seq<Ext>)
  {
    if s == [] then [e] else if rank(e.0) <= rank(s[0].0) then [e] + s else [s[0]] + Insert(rank, e, s[1..])
  }

  /** A stable sort by rank of the extension type. */
  function Sort(rank: nat -> nat, s: seq<Ext>): (r: seq<Ext>)
  {
    if s == [] then [] else Insert(rank, s[0], Sort(rank, s[1..]))
  }

  lemma {:induction false} InsertKeeps(rank: nat -> nat, e: Ext, s: seq<Ext>)
    requires UniqueTypes(s) && e.0 !in TypesOf(s)
    ensures UniqueTypes(Insert(rank, e, s))
    ensures forall x :: x in Insert(rank, e, s) <==> x == e || x in s
  {
    if s == [] {
    } else if rank(e.0) <= rank(s[0].0) {
      UniqueSnoc(s, e);
    } else {
      assert forall x :: x in s[1..] ==> x in s;
      InsertKeeps(rank, e, s[1..]);
      var r := Insert(rank, e, s[1..]);
      assert s[0].0 !in TypesOf(r) by {
        assert forall x :: x in r ==> x == e || x in s[1..];
      }
      UniqueSnoc(r, s[0]);
    }
  }

  lemma {:induction false} SortKeeps(rank: nat -> nat, s: seq<Ext>)
    requires UniqueTypes(s)
    ensures UniqueTypes(Sort(rank, s))
    ensures forall x :: x in Sort(rank, s) <==> x in s
  {
    if s != [] {
      SortKeeps(rank, s[1..]);
      var r := Sort(rank, s[1..]);
      assert s[0].0 !in TypesOf(r) by {
        assert forall x :: x in r ==> x in s[1..];
      }
      InsertKeeps(rank, s[0], r);
    }
  }
}

module EchCompression {
  import opened Bits
  import opened Wire
  import opened Messages
  import opened ExtensionLists

  const PRE_SHARED_KEY: nat := 41
  const CLIENT_HELLO_PADDING: nat := 21
  const SUPPORTED_VERSIONS: nat := 43
  const ECH_OUTER_EXTENSIONS: nat := 0xFD00
  const ENCRYPTED_CLIENT_HELLO: nat := 0xFE0D
  const TLS13: nat := 772

  const COMPRESSIBLE: seq<nat> := [13, 5, 18, 16, 45, 42, 51, 44, 10, 27, 0x44CD, 49]

  predicate Grease(t: nat) { t % 0x1010 == 0x0A0A && t <= 0xFAFA }

  predicate Compressible(t: nat) { t in COMPRESSIBLE || Grease(t) }

  // Client: inner extensions split into kept, compressed and PSK; `comp` tells the compressible types

  function Kept(comp: nat -> bool, s: seq<Ext>): (r: seq<Ext>)
  {
    if s == [] then [] else
    (if s[0].0 != PRE_SHARED_KEY && !comp(s[0].0) then [s[0]] else []) + Kept(comp, s[1..])
  }

  function Compressed(comp: nat -> bool, s: seq<Ext>): (r: seq<Ext>)
  {
    if s == [] then [] else
    (if s[0].0 != PRE_SHARED_KEY && comp(s[0].0) then [s[0]] else []) + Compressed(comp, s[1..])
  }

  function Psk(s: seq<Ext>): (r: seq<Ext>)
  {
    match Find(s, PRE_SHARED_KEY) case None => [] case Some(b) => [(PRE_SHARED_KEY, b)]
  }

  function Types(s: seq<Ext>): (r: seq<nat>)
    ensures |r| == |s| && forall i :: 0 <= i < |s| ==> r[i] == s[i].0
  {
    seq(|s|, i requires 0 <= i < |s| => s[i].0)
  }

  function OuterRefC(): Codec<seq<nat>> { IntListC(2, 1) }

  /** The extensions of the inner hello the client hashes. */
  function FullInner(comp: nat -> bool, inner: seq<Ext>): (r: seq<Ext>)
  {
    Kept(comp, inner) + Compressed(comp, inner) + Psk(inner)
  }

  /** The extensions of the encoded inner hello it encrypts. */
  function EncodedInner(comp: nat -> bool, inner: seq<Ext>): (r: Option<seq<Ext>>)
  {
    if Compressed(comp, inner) == [] then Some(Kept(comp, inner) + Psk(inner)) else
    match OuterRefC().ser(Types(Compressed(comp, inner)))
    case None => None
    case Some(b) => Some(Kept(comp, inner) + [(ECH_OUTER_EXTENSIONS, b)] + Psk(inner))
  }

  lemma SplitNothing(comp: nat -> bool, kept: seq<Ext>, compressed: seq<Ext>)
    ensures kept + Kept(comp, []) == kept && compressed + Compressed(comp, []) == compressed
  {}

  lemma SplitStep(comp: nat -> bool, inner: seq<Ext>, i: nat, kept: seq<Ext>, compressed: seq<Ext>)
    requires i < |inner|
    ensures var e := inner[i]; var special := e.0 == PRE_SHARED_KEY;
            && kept + Kept(comp, inner[i..])
               == (if special || comp(e.0) then kept else kept + [e]) + Kept(comp, inner[i + 1..])
            && compressed + Compressed(comp, inner[i..])
               == (if special || !comp(e.0) then compressed else compressed + [e]) + Compressed(comp, inner[i + 1..])
  {
    assert inner[i..][0] == inner[i] && inner[i..][1..] == inner[i + 1..];
  }

  /** The loop of _build_encrypted_client_hello that sorts the inner extensions apart. */
  method SplitInner(comp: nat -> bool, inner: seq<Ext>) returns (kept: seq<Ext>, compressed: seq<Ext>, psk: Option<Ext>)
    requires UniqueTypes(inner)
    ensures kept == Kept(comp, inner) && compressed == Compressed(comp, inner)
    ensures (if psk.Some? then [psk.value] else []) == Psk(inner)
  {
    hide TypesOf, Kept, Compressed;
    kept, compressed, psk := [], [], None;
    var i := 0;
    assert inner[0..] == inner && [] + Kept(comp, inner) == Kept(comp, inner)
           && [] + Compressed(comp, inner) == Compressed(comp, inner);
    while i < |inner|
      invariant 0 <= i <= |inner|
      invariant kept + Kept(comp, inner[i..]) == Kept(comp, inner)
      invariant compressed + Compressed(comp, inner[i..]) == Compressed(comp, inner)
      invariant psk.Some? ==> psk.value in inner && psk.value.0 == PRE_SHARED_KEY
      invariant psk.None? ==> forall k :: 0 <= k < i ==> inner[k].0 != PRE_SHARED_KEY
    {
      var e := inner[i];
      SplitStep(comp, inner, i, kept, compressed);
      if e.0 == PRE_SHARED_KEY {
        psk := Some(e);
      } else if comp(e.0) {
        compressed := compressed + [e];
      } else {
        kept := kept + [e];
      }
      i := i + 1;
    }
    assert inner[|inner|..] == [];
    SplitNothing(comp, kept, compressed);
    if psk.Some? { FindUnique(inner, psk.value); }
  }

  // Server: references are replaced by what the outer hello holds

  function ExpandTypes(types: seq<nat>, seen: set<nat>, outer: seq<Ext>): (r: Option<seq<Ext>>)
  {
    if types == [] then Some([]) else
    if types[0] in seen then None else
    match Find(outer, types[0])
    case None => None
    case Some(b) =>
      match ExpandTypes(types[1..], seen + {types[0]}, outer)
      case None => None
      case Some(more) => Some([(types[0], b)] + more)
  }

  function IndexOf(s: seq<Ext>, t: nat): (i: nat)
    ensures i <= |s|
    ensures i < |s| <==> t in TypesOf(s)
    ensures i < |s| ==> s[i].0 == t
  {
    if s == [] then 0 else if s[0].0 == t then 0 else 1 + IndexOf(s[1..], t)
  }

  /** The expansion step of _decrypt_ech_payload. */
  function Expand(encoded: seq<Ext>, outer: seq<Ext>): (r: Option<seq<Ext>>)
  {
    match Find(encoded, ECH_OUTER_EXTENSIONS)
    case None => Some(encoded)
    case Some(b) =>
      var idx := IndexOf(encoded, ECH_OUTER_EXTENSIONS);
      match FromBytes(OuterRefC(), b)
      case None => None
      case Some(types) =>
        match ExpandTypes(types, TypesOf(encoded), outer)
        case None => None
        case Some(more) => Some(encoded[..idx] + more + encoded[idx + 1..])
  }

  /** The same step as the loop the server runs. */
  method ExpandLoop(types: seq<nat>, seen0: set<nat>, outer: seq<Ext>) returns (r: Option<seq<Ext>>)
    ensures r == ExpandTypes(types, seen0, outer)
  {
    var seen, acc := seen0, [];
    var i := 0;
    assert types[0..] == types;
    assert forall m: seq<Ext> :: [] + m == m;
    while i < |types|
      invariant 0 <= i <= |types|
      invariant ExpandTypes(types, seen0, outer) ==
                (match ExpandTypes(types[i..], seen, outer) case None => None case Some(m) => Some(acc + m))
    {
      var t := types[i];
      assert types[i..][0] == t && types[i..][1..] == types[i + 1..];
      if t in seen { return None; }
      seen := seen + {t};
      var b := Find(outer, t);
      if b.None? { return None; }
      assert forall m: seq<Ext> :: acc + ([(t, b.value)] + m) == acc + [(t, b.value)] + m;
      acc := acc + [(t, b.value)];
      i := i + 1;
    }
    assert acc + [] == acc;
    return Some(acc);
  }

  lemma {:induction false} SplitMembers(comp: nat -> bool, inner: seq<Ext>)
    ensures forall e :: e in Kept(comp, inner) <==> e in inner && e.0 != PRE_SHARED_KEY && !comp(e.0)
    ensures forall e :: e in Compressed(comp, inner) <==> e in inner && e.0 != PRE_SHARED_KEY && comp(e.0)
  {
    if inner != [] { SplitMembers(comp, inner[1..]); }
  }

  lemma {:induction false} CompressedUnique(comp: nat -> bool, inner: seq<Ext>)
    requires UniqueTypes(inner)
    ensures UniqueTypes(Compressed(comp, inner)) && UniqueTypes(Kept(comp, inner))
  {
    if inner != [] {
      CompressedUnique(comp, inner[1..]);
      SplitMembers(comp, inner[1..]);
      var e := inner[0];
      if e.0 != PRE_SHARED_KEY && comp(e.0) { UniqueSnoc(Compressed(comp, inner[1..]), e); }
      if e.0 != PRE_SHARED_KEY && !comp(e.0) { UniqueSnoc(Kept(comp, inner[1..]), e); }
      assert [] + Compressed(comp, inner[1..]) == Compressed(comp, inner[1..]);
      assert [] + Kept(comp, inner[1..]) == Kept(comp, inner[1..]);
    }
  }

  lemma {:induction false} ExpandFound(want: seq<Ext>, seen: set<nat>, outer: seq<Ext>)
    requires UniqueTypes(want)
    requires forall e :: e in want ==> e.0 !in seen && Find(outer, e.0) == Some(e.1)
    ensures ExpandTypes(Types(want), seen, outer) == Some(want)
  {
    if want != [] {
      assert Types(want)[1..] == Types(want[1..]);
      assert want[0] in want;
      forall e | e in want[1..] ensures e.0 !in seen + {want[0].0} && Find(outer, e.0) == Some(e.1) {
        assert e in want;
      }
      ExpandFound(want[1..], seen + {want[0].0}, outer);
      assert [want[0]] + want[1..] == want;
    }
  }

  lemma {:induction false} AllWfHolds(s: seq<nat>)
    ensures AllWf(IntC(2), s)
  {
    if s != [] { AllWfHolds(s[1..]); }
  }

  lemma OuterRefReads(types: seq<nat>, b: bytes)
    requires OuterRefC().ser(types) == Some(b)
    ensures FromBytes(OuterRefC(), b) == Some(types)
  {
    IntLawful(2); ListLawful(IntC(2), 1);
    AllWfHolds(types);
    RoundTrip(OuterRefC(), types, b);
  }

  /** Expansion of a reference standing between kept extensions and the PSK. */
  lemma ExpandAround(k: seq<Ext>, c: seq<Ext>, p: seq<Ext>, b: bytes, outer: seq<Ext>)
    requires OuterRefC().ser(Types(c)) == Some(b)
    requires ECH_OUTER_EXTENSIONS !in TypesOf(k) && UniqueTypes(c)
    requires forall e :: e in c ==> Find(outer, e.0) == Some(e.1)
    requires forall e :: e in c ==> e.0 !in TypesOf(k + [(ECH_OUTER_EXTENSIONS, b)] + p)
    ensures Expand(k + [(ECH_OUTER_EXTENSIONS, b)] + p, outer) == Some(k + c + p)
  {
    var enc: seq<Ext> := k + [(ECH_OUTER_EXTENSIONS, b)] + p;
    OuterRefReads(Types(c), b);
    IndexAfter(k, (ECH_OUTER_EXTENSIONS, b), p);
    ExpandFound(c, TypesOf(enc), outer);
    assert enc[..|k|] == k && enc[|k| + 1..] == p;
  }

  /** Expansion undoes compression: what the server rebuilds is the list the client hashed. */
  lemma ExpandUndoesCompress(comp: nat -> bool, inner: seq<Ext>, outer: seq<Ext>)
    requires UniqueTypes(inner) && ECH_OUTER_EXTENSIONS !in TypesOf(inner) && !comp(ECH_OUTER_EXTENSIONS)
    requires EncodedInner(comp, inner).Some?
    requires forall e :: e in inner && comp(e.0) ==> Find(outer, e.0) == Some(e.1)
    ensures Expand(EncodedInner(comp, inner).value, outer) == Some(FullInner(comp, inner))
  {
    SplitMembers(comp, inner);
    CompressedUnique(comp, inner);
    var k, c, p := Kept(comp, inner), Compressed(comp, inner), Psk(inner);
    assert forall e :: e in p ==> e in inner && e.0 == PRE_SHARED_KEY;
    if c == [] {
      assert k + [] + p == k + p;
      assert ECH_OUTER_EXTENSIONS !in TypesOf(k + p) by {
        assert forall e: Ext :: e in k + p ==> e in inner;
      }
    } else {
      var b := OuterRefC().ser(Types(c)).value;
      var ref: Ext := (ECH_OUTER_EXTENSIONS, b);
      forall e | e in c ensures e.0 !in TypesOf(k + [ref] + p) {
        forall x | x in k + [ref] + p ensures x.0 != e.0 {
          assert x in k || x == ref || x in p;
        }
      }
      ExpandAround(k, c, p, b, outer);
    }
  }

  lemma {:induction false} IndexAfter(k: seq<Ext>, e: Ext, p: seq<Ext>)
    requires e.0 !in TypesOf(k)
    ensures IndexOf(k + [e] + p, e.0) == |k| && Find(k + [e] + p, e.0) == Some(e.1)
  {
    if k != [] {
      assert k[0] in k;
      assert (k + [e] + p)[1..] == k[1..] + [e] + p;
      IndexAfter(k[1..], e, p);
    }
  }
}
