/** ECH acceptance: the server hides a confirmation in its hello (_apply_ech_acceptance), the client
    looks for it (_check_ech_confirmation), and both compute it with the place zeroed. */
module EchAcceptance {
  import opened Bits
  import opened Wire
  import opened Messages
  import opened ExtensionLists
  import opened EchCompression

  const Zero8: bytes := [0, 0, 0, 0, 0, 0, 0, 0]

  /** The confirmation as a function of the label and of the transcript, for one inner random and
      hash. `pack` frames a hello as a handshake message. */
  datatype Confirmation = Confirmation(value: (bool, bytes) -> bytes, pack: ServerHello -> bytes)

  ghost predicate ConfirmationOk(f: Confirmation)
  {
    forall hrr: bool, t: bytes :: |f.value(hrr, t)| == 8
  }

  /** The hello with eight octets in the place of the confirmation. */
  function With(m: ServerHello, hrr: bool, v: bytes): (r: Option<ServerHello>)
    requires |m.random| == 32 && |v| == 8
    ensures r.Some? ==> |r.value.random| == 32
  {
    if !hrr then Some(m.(random := m.random[..24] + v)) else
    match Replace(m.extensions, ENCRYPTED_CLIENT_HELLO, v)
    case None => None
    case Some(es) => Some(m.(extensions := es))
  }

  /** What stands in the place of the confirmation. */
  function Place(m: ServerHello, hrr: bool): (r: Option<bytes>)
    requires |m.random| == 32
  {
    if !hrr then Some(m.random[24..]) else Find(m.extensions, ENCRYPTED_CLIENT_HELLO)
  }

  /** The place holds the value computed from the hello with the place zeroed. */
  ghost predicate Confirms(f: Confirmation, t: bytes, hrr: bool, m: ServerHello)
    requires |m.random| == 32
  {
    && With(m, hrr, Zero8).Some?
    && Place(m, hrr) == Some(f.value(hrr, t + f.pack(With(m, hrr, Zero8).value)))
  }

  /** A ServerHello object, whose fields both methods overwrite for a moment. */
  class HelloObject {
    const version: nat
    const sessionId: bytes
    const cipherSuite: nat
    const compressionMethod: nat
    var random: bytes
    var extensions: seq<Ext>

    function Value(): ServerHello
      reads this
    {
      ServerHello(version, random, sessionId, cipherSuite, compressionMethod, extensions)
    }

    constructor (m: ServerHello)
      ensures Value() == m
    {
      version, random, sessionId := m.version, m.random, m.sessionId;
      cipherSuite, compressionMethod, extensions := m.cipherSuite, m.compressionMethod, m.extensions;
    }

    /** _apply_ech_acceptance: the hello it leaves confirms itself, and differs from the one
        given only in the place of the confirmation. */
    method Apply(f: Confirmation, t: bytes, hrr: bool)
      requires ConfirmationOk(f) && |random| == 32 && (hrr ==> ENCRYPTED_CLIENT_HELLO !in TypesOf(extensions))
      modifies this
      ensures |random| == 32 && Confirms(f, t, hrr, Value())
      ensures !hrr ==> random[..24] == old(random)[..24] && extensions == old(extensions)
      ensures hrr ==> random == old(random) && |extensions| == |old(extensions)| + 1
                      && extensions[..|old(extensions)|] == old(extensions)
    {
      if hrr {
        var n := |extensions|;
        extensions := extensions + [(ENCRYPTED_CLIENT_HELLO, Zero8)];
        AppendReplace(old(extensions), Zero8, Zero8);
        var v := f.value(true, t + f.pack(Value()));
        AppendReplace(old(extensions), Zero8, v);
        AppendReplace(old(extensions), v, Zero8);
        extensions := Replace(extensions, ENCRYPTED_CLIENT_HELLO, v).value;
      } else {
        var original := random;
        random := original[..24] + Zero8;
        var v := f.value(false, t + f.pack(Value()));
        random := original[..24] + v;
        assert random[..24] + Zero8 == original[..24] + Zero8;
      }
    }

    /** _check_ech_confirmation; `None` is the extension that cannot be parsed. The answer says
        whether the hello confirms itself, and every field is as it was. */
    method Check(f: Confirmation, t: bytes, hrr: bool) returns (r: Option<bool>)
      requires ConfirmationOk(f) && |random| == 32
      modifies this
      ensures Value() == old(Value())
      ensures r.None? <==> hrr && Place(old(Value()), true).Some? && |Place(old(Value()), true).value| != 8
      ensures r.Some? ==> (r.value <==> Confirms(f, t, hrr, old(Value())))
    {
      if hrr {
        var found := Find(extensions, ENCRYPTED_CLIENT_HELLO);
        if found.None? { return Some(false); }
        var expected := found.value;
        if |expected| != 8 { return None; }
        ReplaceTwice(extensions, ENCRYPTED_CLIENT_HELLO, Zero8, expected);
        extensions := Replace(extensions, ENCRYPTED_CLIENT_HELLO, Zero8).value;
        var v := f.value(true, t + f.pack(Value()));
        extensions := Replace(extensions, ENCRYPTED_CLIENT_HELLO, expected).value;
        return Some(v == expected);
      } else {
        var original := random;
        var expected := random[24..];
        random := random[..24] + Zero8;
        var v := f.value(false, t + f.pack(Value()));
        random := original;
        return Some(v == expected);
      }
    }
  }

  lemma OtherFirst(e: Ext, es: seq<Ext>, t: nat, b: bytes)
    requires e.0 != t
    ensures Find([e] + es, t) == Find(es, t)
    ensures Replace([e] + es, t, b) == match Replace(es, t, b) case None => None case Some(x) => Some([e] + x)
  {
    assert ([e] + es)[1..] == es;
  }

  lemma OnlyOne(t: nat, a: bytes, b: bytes)
    ensures Find([(t, a)], t) == Some(a) && Replace([(t, a)], t, b) == Some([(t, b)])
  {
    assert [(t, b)] + [(t, a)][1..] == [(t, b)];
  }

  /** Replacing an extension that was appended. */
  lemma {:induction false} AppendReplaceAt(es: seq<Ext>, t: nat, a: bytes, b: bytes)
    requires forall e <- es :: e.0 != t
    ensures Replace(es + [(t, a)], t, b) == Some(es + [(t, b)])
    ensures Find(es + [(t, a)], t) == Some(a)
  {
    hide Find, Replace;
    if es == [] {
      assert es + [(t, a)] == [(t, a)] && es + [(t, b)] == [(t, b)];
      OnlyOne(t, a, b);
    } else {
      AppendReplaceAt(es[1..], t, a, b);
      OtherFirst(es[0], es[1..] + [(t, a)], t, b);
      assert es + [(t, a)] == [es[0]] + (es[1..] + [(t, a)]);
      assert es + [(t, b)] == [es[0]] + (es[1..] + [(t, b)]);
    }
  }

  lemma AppendReplace(es: seq<Ext>, a: bytes, b: bytes)
    requires ENCRYPTED_CLIENT_HELLO !in TypesOf(es)
    ensures Replace(es + [(ENCRYPTED_CLIENT_HELLO, a)], ENCRYPTED_CLIENT_HELLO, b)
            == Some(es + [(ENCRYPTED_CLIENT_HELLO, b)])
    ensures Find(es + [(ENCRYPTED_CLIENT_HELLO, a)], ENCRYPTED_CLIENT_HELLO) == Some(a)
  {
    AppendReplaceAt(es, ENCRYPTED_CLIENT_HELLO, a, b);
  }

  /** The hello that carries `v` can be serialised. */
  predicate CanCarry(m: ServerHello, hrr: bool, v: bytes)
    requires |m.random| == 32 && |v| == 8
  {
    var w := if hrr then m.(extensions := m.extensions + [(ENCRYPTED_CLIENT_HELLO, v)])
      else m.(random := m.random[..24] + v);
    WfServerHello(w) && SerServerHello(w).Some?
  }

  lemma Sent(m: ServerHello, sent: ServerHello, hrr: bool)
    requires |m.random| == |sent.random| == 32 && (forall v: bytes :: |v| == 8 ==> CanCarry(m, hrr, v))
    requires sent == m.(random := sent.random, extensions := sent.extensions)
    requires !hrr ==> sent.random[..24] == m.random[..24] && sent.extensions == m.extensions
    requires hrr ==> sent.random == m.random && |sent.extensions| == |m.extensions| + 1
                     && sent.extensions[..|m.extensions|] == m.extensions
                     && Find(sent.extensions, ENCRYPTED_CLIENT_HELLO).Some?
                     && |Find(sent.extensions, ENCRYPTED_CLIENT_HELLO).value| == 8
                     && ENCRYPTED_CLIENT_HELLO !in TypesOf(m.extensions)
    ensures WfServerHello(sent) && SerServerHello(sent).Some?
  {
    hide WfServerHello, SerServerHello;
    if hrr {
      var n := |m.extensions|;
      var last := sent.extensions[n];
      var v := Find(sent.extensions, ENCRYPTED_CLIENT_HELLO).value;
      assert sent.extensions == m.extensions + [last];
      assert (ENCRYPTED_CLIENT_HELLO, v) in sent.extensions;
      assert (ENCRYPTED_CLIENT_HELLO, v) !in m.extensions;
      assert last == (ENCRYPTED_CLIENT_HELLO, v);
      assert CanCarry(m, hrr, v);
    } else {
      var v := sent.random[24..];
      assert sent.random == m.random[..24] + v;
      assert CanCarry(m, hrr, v);
    }
  }
}
