/** src/simple_tls/crypto/verification.py: breadth-first search for certification paths and
    the checks on a candidate chain. */
module CertPath {
  import opened Wire

  type Name = string

  datatype BasicConstraints = BasicConstraints(ca: bool, pathLength: Option<nat>)

  /** A certificate as far as path validation looks into it; `der` stands for its octets. */
  datatype Cert = Cert(
    der: nat, subject: Name, issuer: Name, serial: nat, constraints: Option<BasicConstraints>,
    authorityKeyId: Option<nat>, subjectKeyId: Option<nat>, notBefore: int, notAfter: int)

  type Chain = seq<Cert>

  /** A Verifier: the store in insertion order, its limits, and the foreign checks it calls.
      `signs(c, i)` is verify_directly_issued_by. */
  datatype Verifier = Verifier(
    trusted: seq<Cert>, maxDepth: nat, allowPartial: bool,
    signs: (Cert, Cert) -> bool, eePolicy: Cert -> bool, caPolicy: Cert -> bool)

  datatype Failure = UntrustedRoot | NotYetValid | Expired | BadSignature | PolicyViolation

  predicate SelfIssued(c: Cert) { c.subject == c.issuer }

  predicate KeyIdsCompatible(issuer: Cert, c: Cert)
  {
    c.authorityKeyId.Some? && issuer.subjectKeyId.Some? ==> c.authorityKeyId == issuer.subjectKeyId
  }

  // Paths

  /** One step of the search: `i` may follow `c`. */
  predicate Step(v: Verifier, pool: seq<Cert>, c: Cert, i: Cert)
  {
    (i in pool || i in v.trusted) && i.subject == c.issuer && i != c && KeyIdsCompatible(i, c)
  }

  predicate Path(v: Verifier, pool: seq<Cert>, leaf: Cert, p: Chain)
  {
    p != [] && p[0] == leaf && forall k :: 0 < k < |p| ==> Step(v, pool, p[k - 1], p[k])
  }

  function Tip(p: Chain): Cert requires p != [] { p[|p| - 1] }

  predicate Anchored(v: Verifier, p: Chain)
    requires p != []
  {
    Tip(p) in v.trusted && (SelfIssued(Tip(p)) || v.allowPartial)
  }

  predicate Candidate(v: Verifier, pool: seq<Cert>, leaf: Cert, p: Chain)
  {
    Path(v, pool, leaf, p) && 2 <= |p| <= v.maxDepth && Anchored(v, p)
  }

  function Named(s: seq<Cert>, n: Name): (r: seq<Cert>)
    ensures forall c :: c in r <==> c in s && c.subject == n
  {
    if s == [] then [] else (if s[0].subject == n then [s[0]] else []) + Named(s[1..], n)
  }

  /** Possible issuers: intermediates of that name, then trusted certificates of that name. */
  function Issuers(v: Verifier, pool: seq<Cert>, c: Cert): (r: seq<Cert>)
    ensures forall i :: i in r <==> (i in pool || i in v.trusted) && i.subject == c.issuer
  {
    Named(pool, c.issuer) + Named(v.trusted, c.issuer)
  }

  /** The key of the seen set. */
  type Edge = (Name, Name, nat)

  function EdgeOf(c: Cert, i: Cert): Edge { (c.subject, i.subject, i.serial) }

  ghost function AllCerts(v: Verifier, pool: seq<Cert>, leaf: Cert): set<Cert>
  {
    {leaf} + (set c | c in pool) + (set c | c in v.trusted)
  }

  /** Every edge a search from `leaf` can record: a finite set, which bounds the search. */
  ghost function AllEdges(v: Verifier, pool: seq<Cert>, leaf: Cert): set<Edge>
  {
    set c, i | c in AllCerts(v, pool, leaf) && i in AllCerts(v, pool, leaf) :: EdgeOf(c, i)
  }

  lemma {:induction false} PathInside(v: Verifier, pool: seq<Cert>, leaf: Cert, p: Chain)
    requires Path(v, pool, leaf, p)
    ensures Tip(p) in AllCerts(v, pool, leaf)
  {
    if |p| > 1 { assert Step(v, pool, p[|p| - 2], p[|p| - 1]); }
  }

  predicate SortedByLength(s: seq<Chain>)
  {
    forall i, j :: 0 <= i < j < |s| ==> |s[i]| <= |s[j]|
  }

  /** The edge of `e` leads to a chain already enqueued, no longer than `n`. */
  ghost predicate Reached(h: seq<Chain>, e: Edge, n: nat)
  {
    exists m :: 0 <= m < |h| && EndsWith(h[m], e) && |h[m]| <= n
  }

  predicate EndsWith(p: Chain, e: Edge)
  {
    |p| >= 2 && EdgeOf(p[|p| - 2], p[|p| - 1]) == e
  }

  /** Chain `h[j]` has been taken from the queue and all its extensions were looked at. */
  ghost predicate Explored(v: Verifier, pool: seq<Cert>, h: seq<Chain>, p: Chain)
    requires p != []
  {
    |p| < v.maxDepth ==> forall i :: Step(v, pool, Tip(p), i) ==> Reached(h, EdgeOf(Tip(p), i), |p| + 1)
  }

  /** The chains ever enqueued: paths from the leaf within the depth limit, shortest first. */
  ghost predicate History(v: Verifier, pool: seq<Cert>, leaf: Cert, h: seq<Chain>)
  {
    && |h| > 0 && h[0] == [leaf]
    && (forall m :: 0 <= m < |h| ==> Path(v, pool, leaf, h[m]) && |h[m]| <= v.maxDepth)
    && SortedByLength(h)
  }

  /** The yielded chains are the enqueued ones that end in an acceptable anchor. */
  function Yielded(v: Verifier, h: seq<Chain>): (r: seq<Chain>)
  {
    if h == [] then [] else
    Yielded(v, h[..|h| - 1]) +
    (if |h[|h| - 1]| >= 2 && Anchored(v, h[|h| - 1]) then [h[|h| - 1]] else [])
  }

  lemma {:induction false} YieldedMember(v: Verifier, h: seq<Chain>, p: Chain)
    ensures p in Yielded(v, h) <==> p in h && |p| >= 2 && Anchored(v, p)
  {
    if h != [] {
      YieldedMember(v, h[..|h| - 1], p);
      assert h == h[..|h| - 1] + [h[|h| - 1]];
    }
  }

  lemma {:induction false} YieldedSorted(v: Verifier, h: seq<Chain>)
    requires SortedByLength(h)
    ensures SortedByLength(Yielded(v, h))
  {
    if h != [] {
      var pre, last := h[..|h| - 1], h[|h| - 1];
      YieldedSorted(v, pre);
      forall i | 0 <= i < |Yielded(v, pre)| ensures |Yielded(v, pre)[i]| <= |last| {
        YieldedMember(v, pre, Yielded(v, pre)[i]);
      }
    }
  }

  /** Extending a path by a step, at most to the depth limit. */
  lemma Extend(v: Verifier, pool: seq<Cert>, leaf: Cert, p: Chain, i: Cert)
    requires Path(v, pool, leaf, p) && Step(v, pool, Tip(p), i)
    ensures Path(v, pool, leaf, p + [i]) && Tip(p + [i]) == i
    ensures EdgeOf(Tip(p), i) in AllEdges(v, pool, leaf)
  {
    PathInside(v, pool, leaf, p);
    PathInside(v, pool, leaf, p + [i]);
  }

  // One chain taken from the queue

  /** The `for issuer` loop: the new chains and the edges seen after it. */
  function Sweep(chain: Chain, issuers: seq<Cert>, seen: set<Edge>): (r: (seq<Chain>, set<Edge>))
    requires chain != []
  {
    if issuers == [] then ([], seen) else
    var i := issuers[0];
    if i == Tip(chain) || !KeyIdsCompatible(i, Tip(chain)) || EdgeOf(Tip(chain), i) in seen
    then Sweep(chain, issuers[1..], seen)
    else
      var (cs, s) := Sweep(chain, issuers[1..], seen + {EdgeOf(Tip(chain), i)});
      ([chain + [i]] + cs, s)
  }

  lemma {:induction false} SweepFacts(chain: Chain, issuers: seq<Cert>, seen: set<Edge>)
    requires chain != []
    ensures var (cs, s) := Sweep(chain, issuers, seen);
            && seen <= s && (s == seen ==> cs == [])
            && (forall c :: c in cs ==> Extends(chain, issuers, c))
            && (forall i :: i in issuers && i != Tip(chain) && KeyIdsCompatible(i, Tip(chain)) ==>
               EdgeOf(Tip(chain), i) in s)
            && (forall e :: e in s ==> e in seen || exists m :: 0 <= m < |cs| && EndsWith(cs[m], e))
  {
    if issuers != [] {
      var i := issuers[0];
      var e0 := EdgeOf(Tip(chain), i);
      if i == Tip(chain) || !KeyIdsCompatible(i, Tip(chain)) || e0 in seen {
        SweepFacts(chain, issuers[1..], seen);
      } else {
        SweepFacts(chain, issuers[1..], seen + {e0});
        var (ds, s) := Sweep(chain, issuers[1..], seen + {e0});
        var cs := [chain + [i]] + ds;
        assert e0 in s;
        forall e | e in s && e !in seen ensures exists m :: 0 <= m < |cs| && EndsWith(cs[m], e) {
          if e == e0 {
            assert EndsWith(cs[0], e);
          } else {
            var m :| 0 <= m < |ds| && EndsWith(ds[m], e);
            assert cs[m + 1] == ds[m];
          }
        }
      }
    }
  }

  predicate Extends(chain: Chain, issuers: seq<Cert>, c: Chain)
    requires chain != []
  {
    |c| == |chain| + 1 && c[..|chain|] == chain && Tip(c) in issuers
    && Tip(c) != Tip(chain) && KeyIdsCompatible(Tip(c), Tip(chain))
  }

  /** The loop itself; it also yields the new chains that end in an acceptable anchor. */
  method SweepLoop(v: Verifier, chain: Chain, issuers: seq<Cert>, seen0: set<Edge>)
    returns (out: seq<Chain>, added: seq<Chain>, seen: set<Edge>)
    requires chain != []
    ensures (added, seen) == Sweep(chain, issuers, seen0)
    ensures out == Yielded(v, added)
  {
    hide Sweep, Yielded;
    out, added, seen := [], [], seen0;
    var tip := Tip(chain);
    var n := 0;
    assert issuers[0..] == issuers && [] + Sweep(chain, issuers, seen0).0 == Sweep(chain, issuers, seen0).0;
    YieldedNone(v);
    while n < |issuers|
      invariant 0 <= n <= |issuers|
      invariant out == Yielded(v, added)
      invariant Sweep(chain, issuers, seen0) == Ahead(added, Sweep(chain, issuers[n..], seen))
    {
      var issuer := issuers[n];
      SweepNext(chain, issuers, n, added, seen);
      n := n + 1;
      if issuer == tip { continue; }
      if !KeyIdsCompatible(issuer, tip) { continue; }
      var edge := EdgeOf(tip, issuer);
      if edge in seen { continue; }
      seen := seen + {edge};
      var newChain := chain + [issuer];
      if issuer in Named(v.trusted, issuer.subject) {
        if SelfIssued(issuer) {
          out := out + [newChain];
        } else if v.allowPartial {
          out := out + [newChain];
        }
      }
      YieldedOne(v, added, newChain);
      added := added + [newChain];
    }
    SweepDone(chain, issuers[n..], added, seen);
  }

  function Ahead(added: seq<Chain>, r: (seq<Chain>, set<Edge>)): (seq<Chain>, set<Edge>) { (added + r.0, r.1) }

  lemma SweepNext(chain: Chain, issuers: seq<Cert>, n: nat, added: seq<Chain>, seen: set<Edge>)
    requires chain != [] && n < |issuers|
    ensures var i := issuers[n];
            Ahead(added, Sweep(chain, issuers[n..], seen)) ==
            if i == Tip(chain) || !KeyIdsCompatible(i, Tip(chain)) || EdgeOf(Tip(chain), i) in seen
            then Ahead(added, Sweep(chain, issuers[n + 1..], seen))
            else Ahead(added + [chain + [i]], Sweep(chain, issuers[n + 1..], seen + {EdgeOf(Tip(chain), i)}))
  {
    assert issuers[n..][0] == issuers[n] && issuers[n..][1..] == issuers[n + 1..];
    var i := issuers[n];
    var rest := Sweep(chain, issuers[n + 1..], seen + {EdgeOf(Tip(chain), i)}).0;
    assert added + ([chain + [i]] + rest) == (added + [chain + [i]]) + rest;
  }

  lemma SweepDone(chain: Chain, issuers: seq<Cert>, added: seq<Chain>, seen: set<Edge>)
    requires chain != [] && issuers == []
    ensures Ahead(added, Sweep(chain, issuers, seen)) == (added, seen)
  {
    assert added + [] == added;
  }

  lemma YieldedNone(v: Verifier)
    ensures Yielded(v, []) == []
  {}

  lemma YieldedOne(v: Verifier, added: seq<Chain>, c: Chain)
    requires |c| >= 2
    ensures Yielded(v, added + [c]) == Yielded(v, added) + (if Anchored(v, c) then [c] else [])
  {
    assert (added + [c])[..|added|] == added;
  }

  lemma {:induction false} YieldedJoin(v: Verifier, a: seq<Chain>, b: seq<Chain>)
    ensures Yielded(v, a + b) == Yielded(v, a) + Yielded(v, b)
  {
    if b == [] {
      assert a + b == a;
    } else {
      YieldedJoin(v, a, b[..|b| - 1]);
      assert (a + b)[..|a + b| - 1] == a + b[..|b| - 1];
    }
  }

  /** What taking chain `h[k]` from the queue and sweeping its issuers does to the history. */
  lemma SweepHistory(v: Verifier, pool: seq<Cert>, leaf: Cert, h: seq<Chain>, k: nat, seen: set<Edge>)
    requires History(v, pool, leaf, h) && k < |h| && |h[k]| < v.maxDepth
    requires |h[|h| - 1]| <= |h[k]| + 1
    requires forall e :: e in seen ==> e in AllEdges(v, pool, leaf) && Reached(h, e, |h[k]| + 1)
    ensures var (cs, s) := Sweep(h[k], Issuers(v, pool, Tip(h[k])), seen);
            && History(v, pool, leaf, h + cs)
            && |(h + cs)[|h + cs| - 1]| <= |h[k]| + 1
            && (forall e :: e in s ==> e in AllEdges(v, pool, leaf) && Reached(h + cs, e, |h[k]| + 1))
            && Explored(v, pool, h + cs, h[k])
  {
    hide Issuers, Sweep, AllEdges;
    var chain := h[k];
    var issuers := Issuers(v, pool, Tip(chain));
    SweepFacts(chain, issuers, seen);
    var (cs, s) := Sweep(chain, issuers, seen);
    var g := h + cs;
    forall m | 0 <= m < |cs|
      ensures Path(v, pool, leaf, cs[m]) && |cs[m]| == |chain| + 1
      ensures EdgeOf(Tip(chain), Tip(cs[m])) in AllEdges(v, pool, leaf)
    {
      assert Extends(chain, issuers, cs[m]);
      Extend(v, pool, leaf, chain, Tip(cs[m]));
      assert cs[m] == chain + [Tip(cs[m])];
    }
    forall e | e in s ensures e in AllEdges(v, pool, leaf) && Reached(g, e, |chain| + 1) {
      if e in seen {
        ReachedMore(h, cs, e, |chain| + 1);
      } else {
        var m :| 0 <= m < |cs| && EndsWith(cs[m], e);
        assert cs[m][|cs[m]| - 2] == Tip(chain) by { assert Extends(chain, issuers, cs[m]); }
        assert g[|h| + m] == cs[m];
      }
    }
  }

  lemma ReachedMore(h: seq<Chain>, cs: seq<Chain>, e: Edge, n: nat)
    requires Reached(h, e, n)
    ensures Reached(h + cs, e, n)
  {
    var m :| 0 <= m < |h| && EndsWith(h[m], e) && |h[m]| <= n;
    assert (h + cs)[m] == h[m];
  }

  lemma ExploredMore(v: Verifier, pool: seq<Cert>, h: seq<Chain>, cs: seq<Chain>, p: Chain)
    requires p != [] && Explored(v, pool, h, p)
    ensures Explored(v, pool, h + cs, p)
  {
    if |p| < v.maxDepth {
      forall i | Step(v, pool, Tip(p), i) ensures Reached(h + cs, EdgeOf(Tip(p), i), |p| + 1) {
        ReachedMore(h, cs, EdgeOf(Tip(p), i), |p| + 1);
      }
    }
  }

  /** The search after taking `k` chains from the queue `h[k..]`. */
  ghost predicate Searching(v: Verifier, pool: seq<Cert>, leaf: Cert, h: seq<Chain>, k: nat, seen: set<Edge>)
  {
    && History(v, pool, leaf, h) && k <= |h|
    && (forall m :: 0 <= m < k ==> Explored(v, pool, h, h[m]))
    && (forall e :: e in seen ==> e in AllEdges(v, pool, leaf))
    && (k < |h| ==> |h[|h| - 1]| <= |h[k]| + 1 && forall e :: e in seen ==> Reached(h, e, |h[k]| + 1))
  }

  lemma ReachedLonger(h: seq<Chain>, e: Edge, n: nat, m: nat)
    requires Reached(h, e, n) && n <= m
    ensures Reached(h, e, m)
  {}

  /** A chain at the depth limit is dropped. */
  lemma Dropped(v: Verifier, pool: seq<Cert>, leaf: Cert, h: seq<Chain>, k: nat, seen: set<Edge>)
    requires Searching(v, pool, leaf, h, k, seen) && k < |h| && |h[k]| >= v.maxDepth
    ensures Searching(v, pool, leaf, h, k + 1, seen)
  {
    if k + 1 < |h| {
      forall e | e in seen ensures Reached(h, e, |h[k + 1]| + 1) { ReachedLonger(h, e, |h[k]| + 1, |h[k + 1]| + 1); }
    }
  }

  /** Any other chain is extended. */
  lemma Swept(v: Verifier, pool: seq<Cert>, leaf: Cert, h: seq<Chain>, k: nat, seen: set<Edge>)
    requires Searching(v, pool, leaf, h, k, seen) && k < |h| && |h[k]| < v.maxDepth
    ensures var (cs, s) := Sweep(h[k], Issuers(v, pool, Tip(h[k])), seen);
            Searching(v, pool, leaf, h + cs, k + 1, s)
  {
    hide Explored, AllEdges, Issuers, Sweep, Path;
    var (cs, s) := Sweep(h[k], Issuers(v, pool, Tip(h[k])), seen);
    SweepHistory(v, pool, leaf, h, k, seen);
    var g := h + cs;
    forall m | 0 <= m < k + 1 ensures Explored(v, pool, g, g[m]) {
      if m < k { ExploredMore(v, pool, h, cs, h[m]); }
    }
    if k + 1 < |g| {
      forall e | e in s ensures Reached(g, e, |g[k + 1]| + 1) { ReachedLonger(g, e, |g[k]| + 1, |g[k + 1]| + 1); }
    }
  }

  /** The search as a function of its rounds: the queue, the edges seen, and all chains ever enqueued. */
  datatype Search = Search(queue: seq<Chain>, seen: set<Edge>, made: seq<Chain>)

  function Start(leaf: Cert): Search { Search([[leaf]], {}, [[leaf]]) }

  function Round(v: Verifier, pool: seq<Cert>, s: Search): Search
  {
    if s.queue == [] || s.queue[0] == [] then s
    else if |s.queue[0]| >= v.maxDepth then s.(queue := s.queue[1..])
    else
      var (cs, seen) := Sweep(s.queue[0], Issuers(v, pool, Tip(s.queue[0])), s.seen);
      Search(s.queue[1..] + cs, seen, s.made + cs)
  }

  function Rounds(v: Verifier, pool: seq<Cert>, s: Search, n: nat): Search
  {
    if n == 0 then s else Round(v, pool, Rounds(v, pool, s, n - 1))
  }

  /** `h` is what the search has enqueued when its queue is empty. */
  ghost predicate Ends(v: Verifier, pool: seq<Cert>, leaf: Cert, h: seq<Chain>)
  {
    exists n: nat :: Rounds(v, pool, Start(leaf), n).queue == [] && Rounds(v, pool, Start(leaf), n).made == h
  }

  lemma {:induction false} EndsForGood(v: Verifier, pool: seq<Cert>, s: Search, n: nat, m: nat)
    requires n <= m && Rounds(v, pool, s, n).queue == []
    ensures Rounds(v, pool, s, m) == Rounds(v, pool, s, n)
    decreases m
  {
    hide Round;
    if n < m {
      EndsForGood(v, pool, s, n, m - 1);
      NothingLeft(v, pool, Rounds(v, pool, s, n));
    }
  }

  lemma NothingLeft(v: Verifier, pool: seq<Cert>, s: Search)
    requires s.queue == []
    ensures Round(v, pool, s) == s
  {}

  /** The search is deterministic. */
  lemma EndsOnce(v: Verifier, pool: seq<Cert>, leaf: Cert, h: seq<Chain>, g: seq<Chain>)
    requires Ends(v, pool, leaf, h) && Ends(v, pool, leaf, g)
    ensures h == g
  {
    var s := Start(leaf);
    var n: nat :| Rounds(v, pool, s, n).queue == [] && Rounds(v, pool, s, n).made == h;
    var m: nat :| Rounds(v, pool, s, m).queue == [] && Rounds(v, pool, s, m).made == g;
    if n <= m { EndsForGood(v, pool, s, n, m); } else { EndsForGood(v, pool, s, m, n); }
  }

  /** One round of the search: take the first chain and, below the depth limit, extend it. */
  method TakeOne(v: Verifier, pool: seq<Cert>, leaf: Cert, queue0: seq<Chain>, seen0: set<Edge>,
                 ghost h: seq<Chain>, ghost k: nat)
    returns (yielded: seq<Chain>, added: seq<Chain>, queue: seq<Chain>, seen: set<Edge>)
    requires Searching(v, pool, leaf, h, k, seen0) && queue0 == h[k..] && queue0 != []
    ensures Searching(v, pool, leaf, h + added, k + 1, seen) && queue == (h + added)[k + 1..]
    ensures yielded == Yielded(v, added)
    ensures seen0 <= seen && (seen == seen0 ==> added == [])
    ensures Round(v, pool, Search(queue0, seen0, h)) == Search(queue, seen, h + added)
  {
    hide Explored, AllEdges, Issuers, Sweep, SortedByLength;
    var chain := queue0[0];
    assert chain == h[k];
    queue := queue0[1..];
    if |chain| >= v.maxDepth {
      Dropped(v, pool, leaf, h, k, seen0);
      assert h + [] == h;
      return [], [], queue, seen0;
    }
    var issuers := Issuers(v, pool, Tip(chain));
    Swept(v, pool, leaf, h, k, seen0);
    SweepFacts(chain, issuers, seen0);
    yielded, added, seen := SweepLoop(v, chain, issuers, seen0);
    queue := queue + added;
  }

  /** _candidate_chains, run to the end: the generator yields `out` in this order. The history
      `h` of all chains enqueued shows that nothing reachable was missed. */
  method CandidateChains(v: Verifier, pool: seq<Cert>, leaf: Cert) returns (out: seq<Chain>, ghost h: seq<Chain>)
    requires v.maxDepth > 0
    ensures (forall p :: p in out ==> Candidate(v, pool, leaf, p)) && SortedByLength(out)
    ensures out == Yielded(v, h) && Complete(v, pool, leaf, h) && Ends(v, pool, leaf, h)
  {
    hide Round, Candidate;
    out := [];
    h := [[leaf]];
    var queue: seq<Chain> := [[leaf]];
    var seen: set<Edge> := {};
    ghost var k := 0;
    while queue != []
      invariant Searching(v, pool, leaf, h, k, seen) && out == Yielded(v, h)
      invariant Rounds(v, pool, Start(leaf), k) == Search(queue, seen, h)
      invariant queue == h[k..]
      decreases AllEdges(v, pool, leaf) - seen, |queue|
    {
      ghost var seen0, left := seen, |queue|;
      var yielded, added;
      yielded, added, queue, seen := TakeOne(v, pool, leaf, queue, seen, h, k);
      YieldedJoin(v, h, added);
      EdgesLeft(v, pool, leaf, seen0, seen);
      out := out + yielded;
      h := h + added;
      k := k + 1;
      assert seen == seen0 ==> |queue| == left - 1;
    }
    CompleteHistory(v, pool, leaf, h);
    CandidatesSound(v, pool, leaf, h);
  }

  lemma EdgesLeft(v: Verifier, pool: seq<Cert>, leaf: Cert, a: set<Edge>, b: set<Edge>)
    requires a <= b && forall e :: e in b ==> e in AllEdges(v, pool, leaf)
    ensures a == b || AllEdges(v, pool, leaf) - b < AllEdges(v, pool, leaf) - a
  {
    if a != b {
      var e :| e in b && e !in a;
      assert e in AllEdges(v, pool, leaf) - a && e !in AllEdges(v, pool, leaf) - b;
    }
  }

  /** A finished search: every chain enqueued was also explored. */
  ghost predicate Complete(v: Verifier, pool: seq<Cert>, leaf: Cert, h: seq<Chain>)
  {
    History(v, pool, leaf, h) && forall m :: 0 <= m < |h| ==> Explored(v, pool, h, h[m])
  }

  // What the search finds

  /** Every yielded chain is a candidate, and shorter ones come first. */
  lemma CandidatesSound(v: Verifier, pool: seq<Cert>, leaf: Cert, h: seq<Chain>)
    requires History(v, pool, leaf, h)
    ensures forall p :: p in Yielded(v, h) ==> Candidate(v, pool, leaf, p)
    ensures SortedByLength(Yielded(v, h))
  {
    forall p | p in Yielded(v, h) ensures Candidate(v, pool, leaf, p) { YieldedMember(v, h, p); }
    YieldedSorted(v, h);
  }

  // Exactly when the search looks at every path

  /** No two different paths of allowed length have the same last edge. */
  ghost predicate EdgesUnique(v: Verifier, pool: seq<Cert>, leaf: Cert)
  {
    forall p, q :: Within(v, pool, leaf, p) && Within(v, pool, leaf, q) && LastEdge(p) == LastEdge(q) ==> p == q
  }

  predicate Within(v: Verifier, pool: seq<Cert>, leaf: Cert, p: Chain)
  {
    Path(v, pool, leaf, p) && 2 <= |p| <= v.maxDepth
  }

  function LastEdge(p: Chain): Edge
    requires |p| >= 2
  {
    EdgeOf(p[|p| - 2], p[|p| - 1])
  }

  /** Then each path is the one that its last edge was recorded for. */
  lemma {:induction false} UniqueFound(v: Verifier, pool: seq<Cert>, leaf: Cert, h: seq<Chain>, p: Chain)
    requires Complete(v, pool, leaf, h) && EdgesUnique(v, pool, leaf) && Path(v, pool, leaf, p) && |p| <= v.maxDepth
    ensures p in h
    decreases |p|
  {
    if |p| == 1 {
      assert p == [leaf] == h[0];
    } else {
      var q := p[..|p| - 1];
      assert Path(v, pool, leaf, q);
      UniqueFound(v, pool, leaf, h, q);
      var j :| 0 <= j < |h| && h[j] == q;
      assert Explored(v, pool, h, h[j]) && Step(v, pool, Tip(q), Tip(p));
      var m :| 0 <= m < |h| && EndsWith(h[m], LastEdge(p)) && |h[m]| <= |q| + 1;
      assert Within(v, pool, leaf, h[m]) && Within(v, pool, leaf, p);
    }
  }

  /** Every edge that leads to an enqueued chain was recorded, for that chain alone. */
  ghost predicate Once(h: seq<Chain>, seen: set<Edge>)
  {
    && (forall i :: 0 <= i < |h| && |h[i]| >= 2 ==> LastEdge(h[i]) in seen)
    && (forall i, j :: 0 <= i < j < |h| && |h[i]| >= 2 && |h[j]| >= 2 ==> LastEdge(h[i]) != LastEdge(h[j]))
  }

  lemma {:induction false} SweepOnce(chain: Chain, issuers: seq<Cert>, seen: set<Edge>)
    requires chain != []
    ensures var (cs, s) := Sweep(chain, issuers, seen);
            && seen <= s && Once(cs, s) && forall m :: 0 <= m < |cs| ==> |cs[m]| >= 2 && LastEdge(cs[m]) !in seen
  {
    if issuers != [] {
      var i := issuers[0];
      var e := EdgeOf(Tip(chain), i);
      if i == Tip(chain) || !KeyIdsCompatible(i, Tip(chain)) || e in seen { SweepOnce(chain, issuers[1..], seen); }
      else {
        SweepOnce(chain, issuers[1..], seen + {e});
        var (ds, s) := Sweep(chain, issuers[1..], seen + {e});
        var cs := [chain + [i]] + ds;
        assert LastEdge(cs[0]) == e && e in s;
        forall m | 1 <= m < |cs| ensures cs[m] == ds[m - 1] && LastEdge(cs[m]) != e && LastEdge(cs[m]) in s {}
        forall k, m | 0 <= k < m < |cs| ensures LastEdge(cs[k]) != LastEdge(cs[m]) {
          if k > 0 { assert LastEdge(ds[k - 1]) != LastEdge(ds[m - 1]); }
        }
      }
    }
  }

  lemma OnceMore(h: seq<Chain>, seen: set<Edge>, cs: seq<Chain>, s: set<Edge>)
    requires Once(h, seen) && Once(cs, s) && seen <= s
    requires forall m :: 0 <= m < |cs| ==> |cs[m]| >= 2 && LastEdge(cs[m]) !in seen
    ensures Once(h + cs, s)
  {}

  lemma {:induction false} RoundsOnce(v: Verifier, pool: seq<Cert>, leaf: Cert, n: nat)
    ensures Once(Rounds(v, pool, Start(leaf), n).made, Rounds(v, pool, Start(leaf), n).seen)
  {
    hide Sweep, Issuers, Once;
    if n == 0 { OnceStart(leaf); }
    else {
      RoundsOnce(v, pool, leaf, n - 1);
      var s := Rounds(v, pool, Start(leaf), n - 1);
      if s.queue != [] && s.queue[0] != [] && |s.queue[0]| < v.maxDepth {
        var issuers := Issuers(v, pool, Tip(s.queue[0]));
        SweepOnce(s.queue[0], issuers, s.seen);
        var (cs, seen) := Sweep(s.queue[0], issuers, s.seen);
        OnceMore(s.made, s.seen, cs, seen);
      }
    }
  }

  lemma OnceStart(leaf: Cert)
    ensures Once([[leaf]], {})
  {}

  /** The search looks at every path within the depth limit exactly if no two of them have the same
      last edge (subject, issuing subject, issuing serial number). */
  lemma AllFoundIff(v: Verifier, pool: seq<Cert>, leaf: Cert, h: seq<Chain>)
    requires Complete(v, pool, leaf, h) && Ends(v, pool, leaf, h)
    ensures (forall p :: Within(v, pool, leaf, p) ==> p in h) <==> EdgesUnique(v, pool, leaf)
  {
    hide Complete, Path, Rounds, Start;
    if EdgesUnique(v, pool, leaf) {
      forall p | Within(v, pool, leaf, p) ensures p in h { UniqueFound(v, pool, leaf, h, p); }
    }
    if forall p :: Within(v, pool, leaf, p) ==> p in h {
      var n: nat :| Rounds(v, pool, Start(leaf), n).queue == [] && Rounds(v, pool, Start(leaf), n).made == h;
      RoundsOnce(v, pool, leaf, n);
      forall p, q | Within(v, pool, leaf, p) && Within(v, pool, leaf, q) && LastEdge(p) == LastEdge(q) ensures p == q {
        var i :| 0 <= i < |h| && h[i] == p;
        var j :| 0 <= j < |h| && h[j] == q;
      }
    }
  }

  /** No two certificates at hand share subject and serial number. */
  ghost predicate SerialsDistinct(v: Verifier, pool: seq<Cert>, leaf: Cert)
  {
    forall a, b | a in AllCerts(v, pool, leaf) && b in AllCerts(v, pool, leaf) ::
      a.subject == b.subject && a.serial == b.serial ==> a == b
  }

  /** Whatever a path of allowed length reaches, the search reached by a path no longer. */
  lemma {:induction false} AllReached(v: Verifier, pool: seq<Cert>, leaf: Cert, h: seq<Chain>, p: Chain)
    requires Complete(v, pool, leaf, h) && SerialsDistinct(v, pool, leaf)
    requires Path(v, pool, leaf, p) && |p| <= v.maxDepth
    ensures exists m :: 0 <= m < |h| && Tip(h[m]) == Tip(p) && |h[m]| <= |p| && (|p| > 1 ==> |h[m]| > 1)
    decreases |p|
  {
    if |p| == 1 {
      assert h[0] == [leaf];
    } else {
      var q := p[..|p| - 1];
      assert Path(v, pool, leaf, q);
      AllReached(v, pool, leaf, h, q);
      var j :| 0 <= j < |h| && Tip(h[j]) == Tip(q) && |h[j]| <= |q|;
      assert Step(v, pool, Tip(q), Tip(p));
      assert Reached(h, EdgeOf(Tip(q), Tip(p)), |h[j]| + 1);
      var m :| 0 <= m < |h| && EndsWith(h[m], EdgeOf(Tip(q), Tip(p))) && |h[m]| <= |h[j]| + 1;
      PathInside(v, pool, leaf, h[m]);
      PathInside(v, pool, leaf, p);
    }
  }

  /** Completeness: for every candidate the search yields one to the same anchor, no longer. */
  lemma CandidatesComplete(v: Verifier, pool: seq<Cert>, leaf: Cert, h: seq<Chain>, p: Chain)
    requires Complete(v, pool, leaf, h) && SerialsDistinct(v, pool, leaf)
    requires Candidate(v, pool, leaf, p)
    ensures exists c :: c in Yielded(v, h) && c != [] && Tip(c) == Tip(p) && |c| <= |p|
  {
    AllReached(v, pool, leaf, h, p);
    var m :| 0 <= m < |h| && Tip(h[m]) == Tip(p) && 1 < |h[m]| <= |p|;
    YieldedMember(v, h, h[m]);
  }

  // Checks on one chain

  predicate IsCa(c: Cert) { c.constraints.Some? && c.constraints.value.ca }

  /** Non-self-issued CA certificates among the first `n` of the chain. */
  function CaCount(p: Chain, n: nat): (r: nat)
    requires n <= |p|
  {
    if n == 0 then 0 else CaCount(p, n - 1) + (if IsCa(p[n - 1]) && !SelfIssued(p[n - 1]) then 1 else 0)
  }

  predicate TimeOk(c: Cert, now: int) { c.notBefore <= now + 300 && now - 300 <= c.notAfter }

  /** What is required of the issuer at position k: `k - 1` positions below it are counted
      against its path length, since the test precedes the increment for its child. */
  predicate IssuerOk(v: Verifier, p: Chain, k: nat)
    requires 0 < k < |p|
  {
    && IsCa(p[k]) && v.signs(p[k - 1], p[k]) && v.caPolicy(p[k])
    && (p[k].constraints.value.pathLength.Some? ==> CaCount(p, k - 1) <= p[k].constraints.value.pathLength.value)
  }

  predicate LinkOk(v: Verifier, p: Chain, k: nat, now: int)
    requires 0 < k < |p|
  {
    TimeOk(p[k - 1], now) && IssuerOk(v, p, k)
  }

  predicate ChainOk(v: Verifier, p: Chain, now: int)
  {
    p != [] && v.eePolicy(p[0]) && forall k :: 0 < k < |p| ==> LinkOk(v, p, k, now)
  }

  /** _verify_chain */
  method VerifyChain(v: Verifier, chain: Chain, now: int) returns (r: Option<Failure>)
    requires chain != []
    ensures r.None? <==> ChainOk(v, chain, now)
    ensures r != Some(UntrustedRoot)
  {
    var caCountBelow := 0;
    var childBc: Option<BasicConstraints> := None;
    var index := 0;
    while index < |chain| - 1
      invariant 0 <= index <= |chain| - 1
      invariant caCountBelow == CaCount(chain, index)
      invariant index > 0 ==> childBc == chain[index].constraints
      invariant forall k :: 0 < k <= index ==> LinkOk(v, chain, k, now)
    {
      var child, issuer := chain[index], chain[index + 1];
      if now + 300 < child.notBefore { assert !LinkOk(v, chain, index + 1, now); return Some(NotYetValid); }
      if now - 300 > child.notAfter { assert !LinkOk(v, chain, index + 1, now); return Some(Expired); }
      if !v.signs(child, issuer) { assert !LinkOk(v, chain, index + 1, now); return Some(BadSignature); }
      if issuer.constraints.None? { assert !LinkOk(v, chain, index + 1, now); return Some(PolicyViolation); }
      var bc := issuer.constraints.value;
      if bc.pathLength.Some? && caCountBelow > bc.pathLength.value {
        assert !LinkOk(v, chain, index + 1, now);
        return Some(PolicyViolation);
      }
      if !bc.ca { assert !LinkOk(v, chain, index + 1, now); return Some(PolicyViolation); }
      if index == 0 { childBc := child.constraints; }
      if childBc.Some? {
        if childBc.value.ca && !SelfIssued(child) { caCountBelow := caCountBelow + 1; }
      }
      childBc := Some(bc);
      assert CaCount(chain, index + 1) == caCountBelow;
      if !v.caPolicy(issuer) { assert !LinkOk(v, chain, index + 1, now); return Some(PolicyViolation); }
      index := index + 1;
    }
    if !v.eePolicy(chain[0]) { return Some(PolicyViolation); }
    return None;
  }

  // Does a valid chain win?

  /** No two certificates at hand share a subject. */
  ghost predicate SubjectsDistinct(v: Verifier, pool: seq<Cert>, leaf: Cert)
  {
    forall a, b | a in AllCerts(v, pool, leaf) && b in AllCerts(v, pool, leaf) :: a.subject == b.subject ==> a == b
  }

  /** Then a path is determined by its length. */
  lemma {:induction false} OnePath(v: Verifier, pool: seq<Cert>, leaf: Cert, p: Chain, q: Chain)
    requires SubjectsDistinct(v, pool, leaf) && Path(v, pool, leaf, p) && Path(v, pool, leaf, q) && |p| <= |q|
    ensures p == q[..|p|]
    decreases |p|
  {
    if |p| > 1 {
      var n := |p| - 1;
      assert Path(v, pool, leaf, p[..n]);
      OnePath(v, pool, leaf, p[..n], q);
      assert Step(v, pool, p[n - 1], p[n]) && Step(v, pool, q[n - 1], q[n]);
      assert p[n - 1] == p[..n][n - 1] == q[n - 1];
      assert p == p[..n] + [p[n]] && q[..n + 1] == q[..n] + [q[n]];
    }
  }

  lemma {:induction false} CaCountPrefix(p: Chain, n: nat, k: nat)
    requires k <= n <= |p|
    ensures CaCount(p[..n], k) == CaCount(p, k)
  {
    if k > 0 { CaCountPrefix(p, n, k - 1); }
  }

  lemma PrefixOk(v: Verifier, p: Chain, now: int, n: nat)
    requires ChainOk(v, p, now) && 0 < n <= |p|
    ensures ChainOk(v, p[..n], now)
  {
    forall k | 0 < k < n ensures LinkOk(v, p[..n], k, now) {
      assert LinkOk(v, p, k, now);
      CaCountPrefix(p, n, k - 1);
    }
  }

  lemma CompleteHistory(v: Verifier, pool: seq<Cert>, leaf: Cert, h: seq<Chain>)
    requires Complete(v, pool, leaf, h)
    ensures History(v, pool, leaf, h)
  {}

  /** Some chain passes every check. */
  ghost predicate Valid(v: Verifier, pool: seq<Cert>, leaf: Cert, now: int)
  {
    exists p :: Candidate(v, pool, leaf, p) && ChainOk(v, p, now)
  }

  ghost predicate Found(v: Verifier, h: seq<Chain>, now: int) { exists c :: c in Yielded(v, h) && ChainOk(v, c, now) }

  /** If no edge is the last of two paths, a valid chain is always found. */
  lemma ValidFound(v: Verifier, pool: seq<Cert>, leaf: Cert, h: seq<Chain>, now: int)
    requires Complete(v, pool, leaf, h) && EdgesUnique(v, pool, leaf) && Valid(v, pool, leaf, now)
    ensures Found(v, h, now)
  {
    hide ChainOk, Complete, EdgesUnique;
    var p :| Candidate(v, pool, leaf, p) && ChainOk(v, p, now);
    UniqueFound(v, pool, leaf, h, p);
    YieldedMember(v, h, p);
  }

  /** The same with distinct subjects: then another path to the edge is the same one cut short. */
  lemma ValidFoundByName(v: Verifier, pool: seq<Cert>, leaf: Cert, h: seq<Chain>, now: int)
    requires Complete(v, pool, leaf, h) && SubjectsDistinct(v, pool, leaf) && Valid(v, pool, leaf, now)
    ensures Found(v, h, now)
  {
    hide ChainOk, Complete;
    CompleteHistory(v, pool, leaf, h);
    var p :| Candidate(v, pool, leaf, p) && ChainOk(v, p, now);
    AllReached(v, pool, leaf, h, p);
    var m :| 0 <= m < |h| && Tip(h[m]) == Tip(p) && 1 < |h[m]| <= |p|;
    OnePath(v, pool, leaf, h[m], p);
    PrefixOk(v, p, now, |h[m]|);
    YieldedMember(v, h, h[m]);
  }

  datatype Verdict = Verified(chain: Chain) | Rejected(failure: Failure)

  /** Verifier.verify: the first candidate that passes, else the last failure. */
  method Verify(v: Verifier, pool: seq<Cert>, leaf: Cert, now: int) returns (r: Verdict, ghost h: seq<Chain>)
    requires v.maxDepth > 0
    ensures Ends(v, pool, leaf, h) && (r.Verified? <==> Found(v, h, now))
    ensures EdgesUnique(v, pool, leaf) || SubjectsDistinct(v, pool, leaf) ==>
            (r.Verified? <==> Valid(v, pool, leaf, now))
    ensures r.Verified? ==> Candidate(v, pool, leaf, r.chain) && ChainOk(v, r.chain, now)
    ensures (forall p :: !Candidate(v, pool, leaf, p)) ==> r == Rejected(UntrustedRoot)
    ensures EdgesUnique(v, pool, leaf) || SerialsDistinct(v, pool, leaf) ==>
              (r == Rejected(UntrustedRoot) <==> forall p :: !Candidate(v, pool, leaf, p))
  {
    hide ChainOk, Ends, Complete, SubjectsDistinct, SerialsDistinct, EdgesUnique, Candidate, Yielded;
    var chains;
    chains, h := CandidateChains(v, pool, leaf);
    VerifyFacts(v, pool, leaf, h, now);
    var last: Option<Failure> := None;
    var n := 0;
    while n < |chains|
      invariant 0 <= n <= |chains|
      invariant last.None? <==> n == 0
      invariant last != Some(UntrustedRoot)
      invariant forall m :: 0 <= m < n ==> !ChainOk(v, chains[m], now)
    {
      assert chains[n] in Yielded(v, h);
      var f := VerifyChain(v, chains[n], now);
      if f.None? { return Verified(chains[n]), h; }
      last := f;
      n := n + 1;
    }
    if last.Some? { assert chains[0] in Yielded(v, h); return Rejected(last.value), h; }
    return Rejected(UntrustedRoot), h;
  }

  /** What the outcome follows from. */
  lemma VerifyFacts(v: Verifier, pool: seq<Cert>, leaf: Cert, h: seq<Chain>, now: int)
    requires Complete(v, pool, leaf, h)
    ensures forall c :: c in Yielded(v, h) ==> c != [] && Candidate(v, pool, leaf, c)
    ensures EdgesUnique(v, pool, leaf) || SubjectsDistinct(v, pool, leaf) ==>
            (Found(v, h, now) <==> Valid(v, pool, leaf, now))
    ensures EdgesUnique(v, pool, leaf) || SerialsDistinct(v, pool, leaf) ==>
              (Yielded(v, h) == [] <==> forall p :: !Candidate(v, pool, leaf, p))
  {
    hide ChainOk, Complete, SubjectsDistinct, SerialsDistinct, EdgesUnique, Candidate, Yielded;
    CompleteHistory(v, pool, leaf, h);
    CandidatesSound(v, pool, leaf, h);
    YieldedChains(v, pool, leaf, h);
    if Valid(v, pool, leaf, now) {
      if EdgesUnique(v, pool, leaf) { ValidFound(v, pool, leaf, h, now); }
      if SubjectsDistinct(v, pool, leaf) { ValidFoundByName(v, pool, leaf, h, now); }
    }
    if p :| Candidate(v, pool, leaf, p) {
      if EdgesUnique(v, pool, leaf) { UniqueYielded(v, pool, leaf, h, p); }
      if SerialsDistinct(v, pool, leaf) { CandidatesComplete(v, pool, leaf, h, p); }
    }
    if Yielded(v, h) != [] { assert Candidate(v, pool, leaf, Yielded(v, h)[0]); }
  }

  lemma YieldedChains(v: Verifier, pool: seq<Cert>, leaf: Cert, h: seq<Chain>)
    ensures forall c :: Candidate(v, pool, leaf, c) ==> c != []
  {}

  lemma UniqueYielded(v: Verifier, pool: seq<Cert>, leaf: Cert, h: seq<Chain>, p: Chain)
    requires Complete(v, pool, leaf, h) && EdgesUnique(v, pool, leaf) && Candidate(v, pool, leaf, p)
    ensures p in Yielded(v, h)
  {
    hide Complete, EdgesUnique;
    UniqueFound(v, pool, leaf, h, p);
    YieldedMember(v, h, p);
  }

  // A valid chain that loses: an issuer certificate renewed under the same name

  function Issued(der: nat, subject: Name, issuer: Name, serial: nat, ca: bool, until: int): Cert
  {
    Cert(der, subject, issuer, serial, Some(BasicConstraints(ca, None)), None, None, 0, until)
  }

  /** A store with one root, and no check that fails but validity. */
  function RootOnly(root: Cert): Verifier
  {
    Verifier([root], 8, false, (c: Cert, i: Cert) => true, (c: Cert) => true, (c: Cert) => true)
  }

  lemma NamedOne(c: Cert, n: Name)
    ensures Named([c], n) == if c.subject == n then [c] else []
  {
    assert Named([c][1..], n) == [];
  }

  lemma NamedTwo(c: Cert, d: Cert, n: Name)
    requires c.subject == d.subject
    ensures Named([c, d], n) == if c.subject == n then [c, d] else []
  {
    assert [c, d][1..] == [d];
    NamedOne(d, n);
  }

  lemma SweepOne(chain: Chain, i: Cert, seen: set<Edge>)
    requires chain != []
    ensures Sweep(chain, [i], seen) ==
            if i == Tip(chain) || !KeyIdsCompatible(i, Tip(chain)) || EdgeOf(Tip(chain), i) in seen then ([], seen)
            else ([chain + [i]], seen + {EdgeOf(Tip(chain), i)})
  {
    assert [i][1..] == [] && [chain + [i]] + [] == [chain + [i]];
  }

  lemma SweepTwo(chain: Chain, i: Cert, j: Cert, seen: set<Edge>)
    requires chain != [] && i != Tip(chain) && KeyIdsCompatible(i, Tip(chain)) && EdgeOf(Tip(chain), i) !in seen
    ensures var (cs, s) := Sweep(chain, [j], seen + {EdgeOf(Tip(chain), i)});
            Sweep(chain, [i, j], seen) == ([chain + [i]] + cs, s)
  {
    assert [i, j][1..] == [j];
  }

  /** The certificate of the issuer that comes first takes the edge to the root with it; the
      chain through the other one is never looked at. */
  lemma RenewalSearch(a: Cert, b: Cert, leaf: Cert, root: Cert)
    requires a.subject == b.subject == leaf.issuer && a.issuer == b.issuer == root.subject == root.issuer
    requires a.serial != b.serial && a.subject != root.subject && leaf.subject != a.subject
    requires leaf.authorityKeyId == a.authorityKeyId == b.authorityKeyId == root.authorityKeyId == None
    ensures Ends(RootOnly(root), [a, b], leaf, [[leaf], [leaf, a], [leaf, b], [leaf, a, root]])
  {
    hide Sweep, Named, Round, Issuers;
    var v, pool := RootOnly(root), [a, b];
    RenewalIssuers(a, b, leaf, root);
    var e1, e2, e3 := EdgeOf(leaf, a), EdgeOf(leaf, b), EdgeOf(a, root);
    var t := [[leaf], [leaf, a], [leaf, b], [leaf, a, root]];
    RenewalFirst(a, b, leaf);
    RoundOf(v, pool, [leaf], [], {}, [[leaf]], [[leaf, a], [leaf, b]], {e1, e2});
    var s1 := Search([[leaf, a], [leaf, b]], {e1, e2}, t[..3]);
    assert [] + [[leaf, a], [leaf, b]] == s1.queue && [[leaf]] + [[leaf, a], [leaf, b]] == t[..3]
           && [[leaf]] + [] == [[leaf]];
    SweepOne([leaf, a], root, {e1, e2});
    assert [leaf, a] + [root] == [leaf, a, root] && {e1, e2} + {e3} == {e1, e2, e3};
    RoundOf(v, pool, [leaf, a], [[leaf, b]], {e1, e2}, t[..3], [[leaf, a, root]], {e1, e2, e3});
    var s2 := Search([[leaf, b], [leaf, a, root]], {e1, e2, e3}, t);
    assert [[leaf, a]] + [[leaf, b]] == s1.queue && [[leaf, b]] + [[leaf, a, root]] == s2.queue
           && t[..3] + [[leaf, a, root]] == t;
    SweepOne([leaf, b], root, {e1, e2, e3});
    RoundOf(v, pool, [leaf, b], [[leaf, a, root]], {e1, e2, e3}, t, [], {e1, e2, e3});
    var s3 := s2.(queue := [[leaf, a, root]]);
    assert [[leaf, b]] + [[leaf, a, root]] == s2.queue && [[leaf, a, root]] + [] == s3.queue && t + [] == t;
    SweepOne([leaf, a, root], root, {e1, e2, e3});
    RoundOf(v, pool, [leaf, a, root], [], {e1, e2, e3}, t, [], {e1, e2, e3});
    assert [[leaf, a, root]] + [] == s3.queue && [] + [] == s3.(queue := []).queue;
    FourRounds(v, pool, Start(leaf), s1, s2, s3, s3.(queue := []));
  }

  lemma RenewalIssuers(a: Cert, b: Cert, leaf: Cert, root: Cert)
    requires a.subject == b.subject == leaf.issuer && a.issuer == b.issuer == root.subject == root.issuer
             && a.subject != root.subject
    ensures var v := RootOnly(root);
            && Issuers(v, [a, b], leaf) == [a, b]
            && Issuers(v, [a, b], a) == Issuers(v, [a, b], b) == Issuers(v, [a, b], root) == [root]
  {
    hide Named;
    NamedTwo(a, b, a.subject); NamedOne(root, a.subject); NamedTwo(a, b, root.subject); NamedOne(root, root.subject);
  }

  lemma RenewalFirst(a: Cert, b: Cert, leaf: Cert)
    requires a.subject == b.subject && a.serial != b.serial && leaf.subject != a.subject && leaf.authorityKeyId.None?
    ensures Sweep([leaf], [a, b], {}) == ([[leaf, a], [leaf, b]], {EdgeOf(leaf, a), EdgeOf(leaf, b)})
  {
    hide Sweep;
    var e1, e2 := EdgeOf(leaf, a), EdgeOf(leaf, b);
    SweepTwo([leaf], a, b, {});
    SweepOne([leaf], b, {} + {e1});
    assert [leaf] + [a] == [leaf, a] && [leaf] + [b] == [leaf, b];
    assert ({} + {e1}) + {e2} == {e1, e2};
    assert [[leaf, a]] + [[leaf, b]] == [[leaf, a], [leaf, b]];
  }

  lemma RoundOf(v: Verifier, pool: seq<Cert>, chain: Chain, rest: seq<Chain>, seen: set<Edge>, made: seq<Chain>,
                cs: seq<Chain>, seen': set<Edge>)
    requires 0 < |chain| < v.maxDepth && Sweep(chain, Issuers(v, pool, Tip(chain)), seen) == (cs, seen')
    ensures Round(v, pool, Search([chain] + rest, seen, made)) == Search(rest + cs, seen', made + cs)
  {
    assert ([chain] + rest)[1..] == rest;
  }

  lemma FourRounds(v: Verifier, pool: seq<Cert>, s: Search, s1: Search, s2: Search, s3: Search, s4: Search)
    requires Round(v, pool, s) == s1 && Round(v, pool, s1) == s2 && Round(v, pool, s2) == s3 && Round(v, pool, s3) == s4
    ensures Rounds(v, pool, s, 4) == s4
  {
    hide Round;
    assert Rounds(v, pool, s, 1) == s1;
    assert Rounds(v, pool, s, 2) == s2;
    assert Rounds(v, pool, s, 3) == s3;
  }

  /** So a chain that passes every check can lose to one that does not: the issuer's certificate
      was renewed, and the expired one is offered first. */
  method RenewedIssuerLoses(leaf: Cert, a: Cert, b: Cert, root: Cert, now: int) returns (r: Verdict)
    requires a.subject == b.subject == leaf.issuer && a.issuer == b.issuer == root.subject == root.issuer
    requires a.serial != b.serial && a.subject != root.subject && leaf.subject != a.subject && leaf != root
    requires leaf.authorityKeyId == a.authorityKeyId == b.authorityKeyId == root.authorityKeyId == None
    requires IsCa(b) && IsCa(root) && b.constraints.value.pathLength.None? && root.constraints.value.pathLength.None?
    requires TimeOk(leaf, now) && TimeOk(b, now) && !TimeOk(a, now)
    ensures r.Rejected? && !EdgesUnique(RootOnly(root), [a, b], leaf)
    ensures Candidate(RootOnly(root), [a, b], leaf, [leaf, b, root]) && ChainOk(RootOnly(root), [leaf, b, root], now)
  {
    hide Ends, Sweep, Candidate, ChainOk, EdgesUnique, Yielded, Found;
    var v := RootOnly(root);
    ghost var h;
    r, h := Verify(v, [a, b], leaf, now);
    RenewalSearch(a, b, leaf, root);
    EndsOnce(v, [a, b], leaf, h, [[leaf], [leaf, a], [leaf, b], [leaf, a, root]]);
    RenewalPaths(leaf, a, b, root, now);
    RenewalNotFound(leaf, a, b, root, now);
  }

  /** Both certificates lead to the root, over one last edge; only one of the two chains is valid. */
  lemma RenewalPaths(leaf: Cert, a: Cert, b: Cert, root: Cert, now: int)
    requires a.subject == b.subject == leaf.issuer && a.issuer == b.issuer == root.subject == root.issuer
    requires a.serial != b.serial && a.subject != root.subject && leaf.subject != a.subject
    requires leaf.authorityKeyId == a.authorityKeyId == b.authorityKeyId == root.authorityKeyId == None
    requires IsCa(b) && IsCa(root) && b.constraints.value.pathLength.None? && root.constraints.value.pathLength.None?
    requires TimeOk(leaf, now) && TimeOk(b, now)
    ensures var v, p := RootOnly(root), [leaf, b, root];
            && Candidate(v, [a, b], leaf, p) && ChainOk(v, p, now) && !EdgesUnique(v, [a, b], leaf)
  {
    var v := RootOnly(root);
    assert Within(v, [a, b], leaf, [leaf, a, root]) && Within(v, [a, b], leaf, [leaf, b, root]);
    assert LastEdge([leaf, a, root]) == LastEdge([leaf, b, root]);
  }

  lemma RenewalNotFound(leaf: Cert, a: Cert, b: Cert, root: Cert, now: int)
    requires leaf != root && a.subject == b.subject && a.subject != root.subject && !TimeOk(a, now)
    ensures !Found(RootOnly(root), [[leaf], [leaf, a], [leaf, b], [leaf, a, root]], now)
  {
    hide Yielded;
    var v, h := RootOnly(root), [[leaf], [leaf, a], [leaf, b], [leaf, a, root]];
    forall c | c in Yielded(v, h) ensures !ChainOk(v, c, now) {
      YieldedMember(v, h, c);
      assert Tip(c) == root;
      assert c == [leaf, a, root];
      assert !LinkOk(v, c, 2, now);
    }
  }

  /** Such certificates exist. */
  lemma RenewalExample()
    ensures var leaf, a, b, root := Issued(3, "L", "A", 4, false, 9000), Issued(1, "A", "R", 2, true, 1000),
                                    Issued(2, "A", "R", 3, true, 9000), Issued(0, "R", "R", 1, true, 9000);
            && a.subject == b.subject == leaf.issuer && a.issuer == b.issuer == root.subject == root.issuer
            && a.serial != b.serial && a.subject != root.subject && leaf.subject != a.subject && leaf != root
            && IsCa(b) && IsCa(root) && TimeOk(leaf, 5000) && TimeOk(b, 5000) && !TimeOk(a, 5000)
  {
    assert "A"[0] != "R"[0] && "L"[0] != "A"[0];
  }
}
