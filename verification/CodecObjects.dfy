/** src/simple_tls/codec.py as objects: a parser that advances an index and a writer that grows a
    list, with the extension list of src/simple_tls/tls/extensions.py read and written through them. */
module CodecObjects {
  import opened Bits
  import opened Wire
  import opened Messages
  import opened ExtensionLists

  /** What a read that consumes from `before` to `after` and gives `r` must be. */
  predicate Consumes<T(==)>(spec: Option<(T, bytes)>, r: Option<T>, after: bytes)
  {
    match spec
    case None => r.None?
    case Some((v, rest)) => r == Some(v) && after == rest
  }

  class Parser {
    const data: bytes
    var index: nat

    ghost predicate Valid() reads this { index <= |data| }

    function Rest(): bytes
      requires Valid()
      reads this
    {
      data[index..]
    }

    constructor (data: bytes)
      ensures Valid() && Rest() == data && this.data == data
    {
      this.data, index := data, 0;
    }

    method ReadBytes(size: nat) returns (r: Option<bytes>)
      requires Valid()
      modifies this`index
      ensures Valid() && Consumes(TakeBytes(old(Rest()), size), r, Rest())
      ensures r.None? ==> index == old(index)
      ensures r.Some? ==> index == old(index) + size
    {
      var end := index + size;
      if end > |data| { return None; }
      r := Some(data[index..end]);
      assert Rest()[..size] == data[index..end] && Rest()[size..] == data[end..];
      index := end;
    }

    method ReadInt(size: nat) returns (r: Option<nat>)
      requires Valid()
      modifies this`index
      ensures Valid() && Consumes(TakeInt(old(Rest()), size), r, Rest())
      ensures r.None? ==> index == old(index)
      ensures r.Some? ==> index == old(index) + size
    {
      var b := ReadBytes(size);
      if b.None? { return None; }
      return Some(BytesToInt(b.value));
    }

    method ReadPrefixedBytes(prefix: nat) returns (r: Option<bytes>)
      requires Valid()
      modifies this`index
      ensures Valid() && Consumes(ParseBlob(prefix, old(Rest())), r, Rest())
      ensures index >= old(index)
    {
      var n := ReadInt(prefix);
      if n.None? { return None; }
      r := ReadBytes(n.value);
    }

    /** One extension: type, then body. */
    method ReadExtension() returns (r: Option<Ext>)
      requires Valid()
      modifies this`index
      ensures Valid() && Consumes(ExtC().parse(old(Rest())), r, Rest())
      ensures r.Some? ==> index > old(index)
    {
      var t := ReadInt(2);
      if t.None? { return None; }
      var d := ReadPrefixedBytes(2);
      if d.None? { return None; }
      return Some((t.value, d.value));
    }

    /** Extensions.parse: items while inside the block, which must end where the last one ends,
        and then as many different types as items. */
    method ReadExtensions() returns (r: Option<seq<Ext>>)
      requires Valid()
      modifies this`index
      ensures Valid() && Consumes(ExtensionsC().parse(old(Rest())), r, Rest())
    {
      hide ExtC, ExtensionsC, ParseItems, Prefixed, TakeInt, UniqueTypes;
      ExtensionsParse(Rest());
      var n := ReadInt(2);
      if n.None? { return None; }
      ghost var start := Rest();
      var end := index + n.value;
      var items: seq<Ext> := [];
      var seen: set<nat> := {};
      EmptyPrefix(ParseItems(ExtC(), n.value, start));
      while index < end
        invariant Valid()
        invariant ParseItems(ExtC(), n.value, start) == Prefixed(items, ParseItems(ExtC(), end - index, Rest()))
        invariant seen == TypesOf(items)
        decreases |data| - index
      {
        ghost var left, rest := end - index, Rest();
        var e := ReadExtension();
        if e.None? {
          ItemsFail(ExtC(), left, rest);
          PrefixedNone(items);
          return None;
        }
        ItemsStep(left, rest, e.value, Rest());
        PrefixedMore(items, e.value, ParseItems(ExtC(), end - index, Rest()));
        TypesMore(items, e.value);
        items := items + [e.value];
        seen := seen + {e.value.0};
      }
      ItemsEnd(ExtC(), end - index, Rest(), items);
      if index != end { return None; }
      DifferentTypes(items);
      if |items| != |seen| { return None; }
      return Some(items);
    }
  }

  lemma ExtensionsParse(s: bytes)
    ensures ExtensionsC().parse(s) ==
            match TakeInt(s, 2)
            case None => None
            case Some((n, s1)) =>
              match ParseItems(ExtC(), n, s1)
              case None => None
              case Some((v, rest)) => if UniqueTypes(v) then Some((v, rest)) else None
  {
    hide ExtC, ParseItems, TakeInt, UniqueTypes;
  }

  lemma ItemsFail(c: Codec<Ext>, n: int, s: bytes)
    requires n > 0 && c.parse(s).None?
    ensures ParseItems(c, n, s) == None
  {}

  lemma ItemsStep(n: int, s: bytes, e: Ext, rest: bytes)
    requires n > 0 && ExtC().parse(s) == Some((e, rest)) && |rest| < |s|
    ensures ParseItems(ExtC(), n, s) == Prefixed([e], ParseItems(ExtC(), n - (|s| - |rest|), rest))
  {
    hide ExtC;
  }

  lemma ItemsEnd(c: Codec<Ext>, n: int, s: bytes, items: seq<Ext>)
    requires n <= 0
    ensures Prefixed(items, ParseItems(c, n, s)) == if n == 0 then Some((items, s)) else None
  {
    assert items + [] == items;
  }

  lemma PrefixedNone(items: seq<Ext>)
    ensures Prefixed(items, None) == None
  {}

  lemma TypesMore(items: seq<Ext>, e: Ext)
    ensures TypesOf(items + [e]) == TypesOf(items) + {e.0}
  {
    forall t | t in TypesOf(items + [e]) ensures t in TypesOf(items) + {e.0} {}
    forall t | t in TypesOf(items) + {e.0} ensures t in TypesOf(items + [e]) {
      if t == e.0 { assert e in items + [e]; }
      else { var d :| d in items && d.0 == t; assert d in items + [e]; }
    }
  }

  function Prefixed(items: seq<Ext>, r: Option<(seq<Ext>, bytes)>): Option<(seq<Ext>, bytes)>
  {
    match r
    case None => None
    case Some((vs, rest)) => Some((items + vs, rest))
  }

  lemma EmptyPrefix(r: Option<(seq<Ext>, bytes)>)
    ensures Prefixed([], r) == r
  {
    if r.Some? { assert [] + r.value.0 == r.value.0; }
  }

  lemma PrefixedMore(items: seq<Ext>, e: Ext, r: Option<(seq<Ext>, bytes)>)
    ensures Prefixed(items, Prefixed([e], r)) == Prefixed(items + [e], r)
  {
    if r.Some? { assert items + ([e] + r.value.0) == (items + [e]) + r.value.0; }
  }

  lemma UniqueMore(items: seq<Ext>, e: Ext)
    ensures UniqueTypes(items + [e]) <==> UniqueTypes(items) && e.0 !in TypesOf(items)
  {
    var all := items + [e];
    if UniqueTypes(all) {
      forall i, j | 0 <= i < j < |items| ensures items[i].0 != items[j].0 { assert all[i].0 != all[j].0; }
    }
    if e.0 in TypesOf(items) {
      var i :| 0 <= i < |items| && items[i].0 == e.0;
      assert all[i].0 == all[|items|].0;
    }
    if UniqueTypes(items) && e.0 !in TypesOf(items) {
      forall i, j | 0 <= i < j < |all| ensures all[i].0 != all[j].0 { assert items[i] in items; }
    }
  }

  /** The comparison of the two sizes finds exactly the repeated types. */
  lemma {:induction false} DifferentTypes(items: seq<Ext>)
    ensures |TypesOf(items)| <= |items|
    ensures |TypesOf(items)| == |items| <==> UniqueTypes(items)
  {
    if items != [] {
      hide UniqueTypes, TypesOf;
      var n := |items| - 1;
      DifferentTypes(items[..n]);
      assert items == items[..n] + [items[n]];
      TypesMore(items[..n], items[n]);
      UniqueMore(items[..n], items[n]);
    }
  }

  class Writer {
    var buffer: seq<bytes>

    function Bytes(): bytes reads this { Concat(buffer) }

    constructor ()
      ensures Bytes() == []
    {
      buffer := [];
    }

    method WriteBytes(data: bytes)
      modifies this
      ensures Bytes() == old(Bytes()) + data
    {
      ConcatMore(buffer, data);
      buffer := buffer + [data];
    }

    /** `false` is the ValueError for a number that does not fit. */
    method WriteInt(value: nat, size: nat) returns (ok: bool)
      modifies this
      ensures ok <==> PutInt(value, size).Some?
      ensures Bytes() == if ok then old(Bytes()) + PutInt(value, size).value else old(Bytes())
    {
      if value >= Limit(size) { return false; }
      WriteBytes(IntToBytes(value, size));
      return true;
    }

    method WritePrefixedBytes(data: bytes, prefix: nat) returns (ok: bool)
      modifies this
      ensures ok <==> PutBlock(data, prefix).Some?
      ensures Bytes() == if ok then old(Bytes()) + PutBlock(data, prefix).value else old(Bytes())
    {
      ok := WriteInt(|data|, prefix);
      if ok {
        WriteBytes(data);
        assert (old(Bytes()) + IntToBytes(|data|, prefix)) + data == old(Bytes()) + (IntToBytes(|data|, prefix) + data);
      }
    }

    /** Extensions.write: the items into a writer of their own, and that as one block. */
    method WriteExtensions(exts: seq<Ext>) returns (ok: bool)
      modifies this
      ensures ok <==> ExtensionsC().ser(exts).Some?
      ensures Bytes() == if ok then old(Bytes()) + ExtensionsC().ser(exts).value else old(Bytes())
    {
      hide ExtensionsC, ExtC, SerItems, PutBlock, PutInt, Join, Concat;
      ExtensionsSer(exts);
      var inner := new Writer();
      assert exts[0..] == exts;
      JoinNothing(SerItems(ExtC(), exts));
      for i := 0 to |exts|
        invariant fresh(inner) && buffer == old(buffer)
        invariant SerItems(ExtC(), exts) == Join(Some(inner.Bytes()), SerItems(ExtC(), exts[i..]))
      {
        ghost var was := inner.Bytes();
        SerStep(exts, i, was);
        ok := inner.WriteInt(exts[i].0, 2);
        if !ok { return false; }
        ok := inner.WritePrefixedBytes(exts[i].1, 2);
        if !ok { return false; }
      }
      assert exts[|exts|..] == [];
      SerNothing(inner.Bytes());
      ok := WritePrefixedBytes(inner.Bytes(), 2);
    }
  }

  lemma ExtensionsSer(exts: seq<Ext>)
    ensures ExtensionsC().ser(exts) == if SerItems(ExtC(), exts).Some? then PutBlock(SerItems(ExtC(), exts).value, 2)
            else None
  {
    hide ExtC, SerItems, PutBlock;
  }

  lemma JoinNothing(r: Option<bytes>)
    ensures Join(Some([]), r) == r
  {
    if r.Some? { assert [] + r.value == r.value; }
  }

  lemma SerNothing(was: bytes)
    ensures Join(Some(was), SerItems(ExtC(), [])) == Some(was)
  {
    assert was + [] == was;
  }

  /** Writing one item ahead of the rest. */
  lemma SerStep(exts: seq<Ext>, i: nat, was: bytes)
    requires i < |exts|
    ensures var t, d := PutInt(exts[i].0, 2), PutBlock(exts[i].1, 2);
            Join(Some(was), SerItems(ExtC(), exts[i..])) ==
            if t.Some? && d.Some? then Join(Some((was + t.value) + d.value), SerItems(ExtC(), exts[i + 1..])) else None
  {
    hide PutInt, PutBlock;
    var t, d := PutInt(exts[i].0, 2), PutBlock(exts[i].1, 2);
    assert exts[i..][1..] == exts[i + 1..];
    if t.Some? && d.Some? && SerItems(ExtC(), exts[i + 1..]).Some? {
      var r := SerItems(ExtC(), exts[i + 1..]).value;
      assert was + ((t.value + d.value) + r) == ((was + t.value) + d.value) + r;
    }
  }
}
