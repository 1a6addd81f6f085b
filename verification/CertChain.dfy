/**
 Chain building over an untrusted certificate cache: from a leaf, follow issuer
 certificate ids (the Authority Key Identifier, section 4.2.1.1 of RFC 5280) to
 certificate ids (the Subject Key Identifier, section 4.2.1.2) until a configured
 root is reached, collecting at most six intermediates.

 The cache is shared and may change between two lookups. `views[k]` is what the
 cache held at the k-th lookup; a cache that does not change is `Fixed`.
 */
module CertChain {
  import opened Base

  const MAX_INTERMEDIATES := 6

  type CertId = seq<bv8>

  datatype Cert = Cert(id: CertId, issuer: CertId, der: seq<bv8>)
  datatype Root = Root(id: CertId, der: seq<bv8>)

  type Cache = map<CertId, Cert>

  /** The cache maps every id to a certificate with that id. */
  ghost predicate Keyed(c: Cache) { forall k :: k in c ==> c[k].id == k }

  type Views = v: seq<Cache> | |v| == MAX_INTERMEDIATES witness seq(MAX_INTERMEDIATES, _ => map[])

  function Fixed(c: Cache): Views { seq(MAX_INTERMEDIATES, _ => c) }

  datatype BuildResult = Built(root: Root, chain: seq<Cert>) | MissingIntermediate(id: CertId) | ExcessivelyLongChain

  // ---- The root set ----

  /** The first root with this id. */
  function Find(roots: seq<Root>, id: CertId): (r: Option<Root>)
    ensures r.Some? ==> r.value in roots && r.value.id == id
    ensures r.None? ==> forall x :: x in roots ==> x.id != id
  {
    if roots == [] then None else if roots[0].id == id then Some(roots[0]) else Find(roots[1..], id)
  }

  lemma {:induction false} FindIsFirst(roots: seq<Root>, id: CertId, k: nat)
    requires k < |roots| && roots[k].id == id && forall j :: 0 <= j < k ==> roots[j].id != id
    ensures Find(roots, id) == Some(roots[k])
  {
    if k > 0 { FindIsFirst(roots[1..], id, k - 1); }
  }

  ghost predicate DistinctIds(roots: seq<Root>) { forall x, y :: x in roots && y in roots && x.id == y.id ==> x == y }

  // ---- The walk, stated without a loop ----

  /** The id to resolve after `chain[..i]`. */
  function IdAt(start: CertId, chain: seq<Cert>, i: nat): CertId
    requires i <= |chain|
  {
    if i == 0 then start else chain[i - 1].issuer
  }

  /** Every certificate of `chain` is the one the walk finds at its step, and no id on the way is a root's. */
  ghost predicate Collected(roots: seq<Root>, views: Views, start: CertId, chain: seq<Cert>) {
    && |chain| <= MAX_INTERMEDIATES
    && forall i :: 0 <= i < |chain| ==>
         var id := IdAt(start, chain, i); Find(roots, id).None? && id in views[i] && chain[i] == views[i][id]
  }

  /** The walk cannot go on after `chain`. */
  predicate Stops(roots: seq<Root>, views: Views, start: CertId, chain: seq<Cert>)
    requires |chain| <= MAX_INTERMEDIATES
  {
    var id := IdAt(start, chain, |chain|);
    Find(roots, id).Some? || |chain| == MAX_INTERMEDIATES || id !in views[|chain|]
  }

  /** What the walk reports when it stops after `chain`. */
  function Report(roots: seq<Root>, start: CertId, chain: seq<Cert>): BuildResult {
    var id := IdAt(start, chain, |chain|);
    var root := Find(roots, id);
    if root.Some? then Built(root.value, chain)
    else if |chain| >= MAX_INTERMEDIATES then ExcessivelyLongChain
    else MissingIntermediate(id)
  }

  /** The walk continued from `chain` as far as it goes. */
  function Continue(roots: seq<Root>, views: Views, start: CertId, chain: seq<Cert>): seq<Cert>
    requires |chain| <= MAX_INTERMEDIATES
    decreases MAX_INTERMEDIATES - |chain|
  {
    if Stops(roots, views, start, chain) then chain
    else Continue(roots, views, start, chain + [views[|chain|][IdAt(start, chain, |chain|)]])
  }

  function Trail(roots: seq<Root>, views: Views, start: CertId): seq<Cert> { Continue(roots, views, start, []) }

  function Build(roots: seq<Root>, views: Views, start: CertId): BuildResult {
    Report(roots, start, Trail(roots, views, start))
  }

  lemma {:induction false} ContinueCollects(roots: seq<Root>, views: Views, start: CertId, chain: seq<Cert>)
    requires Collected(roots, views, start, chain)
    ensures var t := Continue(roots, views, start, chain);
            Collected(roots, views, start, t) && Stops(roots, views, start, t) && chain <= t
    decreases MAX_INTERMEDIATES - |chain|
  {
    if !Stops(roots, views, start, chain) {
      var next := chain + [views[|chain|][IdAt(start, chain, |chain|)]];
      forall i | 0 <= i < |next|
        ensures var id := IdAt(start, next, i); Find(roots, id).None? && id in views[i] && next[i] == views[i][id]
      {
        assert IdAt(start, next, i) == IdAt(start, chain, i);
      }
      ContinueCollects(roots, views, start, next);
    }
  }

  /** The walk is deterministic: two walks from the same start agree as far as both go. */
  lemma {:induction false} CollectedAgree(roots: seq<Root>, views: Views, start: CertId, a: seq<Cert>, b: seq<Cert>, i: nat)
    requires Collected(roots, views, start, a) && Collected(roots, views, start, b) && i < |a| && i < |b|
    ensures a[i] == b[i]
  {
    if i > 0 { CollectedAgree(roots, views, start, a, b, i - 1); }
    assert IdAt(start, a, i) == IdAt(start, b, i);
  }

  lemma ShorterIsPrefix(roots: seq<Root>, views: Views, start: CertId, a: seq<Cert>, b: seq<Cert>)
    requires Collected(roots, views, start, a) && Collected(roots, views, start, b) && |a| <= |b|
    ensures a <= b && IdAt(start, a, |a|) == IdAt(start, b, |a|)
  {
    forall i | 0 <= i < |a| ensures a[i] == b[i] { CollectedAgree(roots, views, start, a, b, i); }
  }

  /** Every walk is a prefix of the trail, and equal to it exactly when it stops. */
  lemma CollectedIsPrefixOfTrail(roots: seq<Root>, views: Views, start: CertId, chain: seq<Cert>)
    requires Collected(roots, views, start, chain)
    ensures chain <= Trail(roots, views, start)
    ensures Stops(roots, views, start, chain) <==> chain == Trail(roots, views, start)
  {
    ContinueCollects(roots, views, start, []);
    var t := Trail(roots, views, start);
    if |chain| <= |t| {
      ShorterIsPrefix(roots, views, start, chain, t);
    } else {
      ShorterIsPrefix(roots, views, start, t, chain);
    }
  }

  /**
   Which result is returned, both ways: a chain exactly when the walk meets a root
   after at most six intermediates, and then that walk; a missing id exactly when it
   is the first id that is neither a root's nor cached with fewer than six collected;
   too long exactly when six are collected and the next id is not a root's.
   */
  lemma BuildCharacterised(roots: seq<Root>, views: Views, start: CertId)
    ensures forall root, chain :: Build(roots, views, start) == Built(root, chain) <==>
              Collected(roots, views, start, chain) && Find(roots, IdAt(start, chain, |chain|)) == Some(root)
    ensures forall id :: Build(roots, views, start) == MissingIntermediate(id) <==>
              exists chain :: && Collected(roots, views, start, chain) && |chain| < 6
                              && IdAt(start, chain, |chain|) == id && Find(roots, id).None? && id !in views[|chain|]
    ensures Build(roots, views, start).ExcessivelyLongChain? <==>
              exists chain :: && Collected(roots, views, start, chain) && |chain| == 6
                              && Find(roots, IdAt(start, chain, |chain|)).None?
  {
    ContinueCollects(roots, views, start, []);
    var t := Trail(roots, views, start);
    forall chain | Collected(roots, views, start, chain) && Stops(roots, views, start, chain) ensures chain == t {
      CollectedIsPrefixOfTrail(roots, views, start, chain);
    }
  }

  /** build_unverified_chain_for, with the cache as each lookup finds it. */
  method BuildUnverifiedChainFor(roots: seq<Root>, cert: Cert, views: Views) returns (r: BuildResult)
    ensures r == Build(roots, views, cert.issuer)
  {
    var nextCertId := cert.issuer;
    var chain: seq<Cert> := [];
    while true
      invariant |chain| <= MAX_INTERMEDIATES
      invariant Collected(roots, views, cert.issuer, chain)
      invariant nextCertId == IdAt(cert.issuer, chain, |chain|)
      decreases MAX_INTERMEDIATES - |chain|
    {
      CollectedIsPrefixOfTrail(roots, views, cert.issuer, chain);
      var root := Find(roots, nextCertId);
      if root.Some? { return Built(root.value, chain); }
      if |chain| >= MAX_INTERMEDIATES { return ExcessivelyLongChain; }
      if nextCertId !in views[|chain|] { return MissingIntermediate(nextCertId); }
      var issuer := views[|chain|][nextCertId];
      ghost var before := chain;
      nextCertId := issuer.issuer;
      chain := chain + [issuer];
      forall i | 0 <= i < |chain|
        ensures var id := IdAt(cert.issuer, chain, i); Find(roots, id).None? && id in views[i] && chain[i] == views[i][id]
      {
        assert IdAt(cert.issuer, chain, i) == IdAt(cert.issuer, before, i);
      }
    }
  }

  // ---- A cache that changes under the walk ----

  /**
   However the cache changes between lookups, a chain that is returned is linked
   issuer to subject from the leaf, holds at most six certificates, none with a
   root's id, and ends at a configured root.
   */
  lemma BuiltChainIsLinked(roots: seq<Root>, views: Views, leaf: Cert, root: Root, chain: seq<Cert>)
    requires forall k :: 0 <= k < |views| ==> Keyed(views[k])
    requires Build(roots, views, leaf.issuer) == Built(root, chain)
    ensures |chain| <= 6 && root in roots
    ensures forall i :: 0 <= i < |chain| ==>
              chain[i].id == IdAt(leaf.issuer, chain, i) && Find(roots, chain[i].id).None?
    ensures root.id == IdAt(leaf.issuer, chain, |chain|)
  {
    ContinueCollects(roots, views, leaf.issuer, []);
    forall i | 0 <= i < |chain|
      ensures chain[i].id == IdAt(leaf.issuer, chain, i) && Find(roots, chain[i].id).None?
    {
      assert chain[i] == views[i][IdAt(leaf.issuer, chain, i)] && Keyed(views[i]);
    }
  }

  lemma FindIgnoresOrder(a: seq<Root>, b: seq<Root>, id: CertId)
    requires multiset(a) == multiset(b) && DistinctIds(a)
    ensures Find(a, id) == Find(b, id)
  {
    forall x ensures x in a <==> x in b { assert x in multiset(a) <==> x in multiset(b); }
  }

  lemma {:induction false} ContinueIgnoresRootOrder(a: seq<Root>, b: seq<Root>, views: Views, start: CertId, chain: seq<Cert>)
    requires multiset(a) == multiset(b) && DistinctIds(a) && |chain| <= MAX_INTERMEDIATES
    ensures Continue(a, views, start, chain) == Continue(b, views, start, chain)
    decreases MAX_INTERMEDIATES - |chain|
  {
    FindIgnoresOrder(a, b, IdAt(start, chain, |chain|));
    if !Stops(a, views, start, chain) {
      ContinueIgnoresRootOrder(a, b, views, start, chain + [views[|chain|][IdAt(start, chain, |chain|)]]);
    }
  }

  /** Permuting roots with distinct ids changes nothing. */
  lemma BuildIgnoresRootOrder(a: seq<Root>, b: seq<Root>, views: Views, start: CertId)
    requires multiset(a) == multiset(b) && DistinctIds(a)
    ensures Build(a, views, start) == Build(b, views, start)
  {
    ContinueIgnoresRootOrder(a, b, views, start, []);
    var t := Trail(a, views, start);
    FindIgnoresOrder(a, b, IdAt(start, t, |t|));
  }

  // ---- A fixed cache ----

  /** With a fixed cache a walk that meets the same id twice repeats itself. */
  lemma {:induction false} WalkRepeats(roots: seq<Root>, c: Cache, start: CertId, chain: seq<Cert>, i: nat, j: nat, k: nat)
    requires Collected(roots, Fixed(c), start, chain) && i < j && j + k <= |chain|
    requires IdAt(start, chain, i) == IdAt(start, chain, j)
    ensures IdAt(start, chain, i + k) == IdAt(start, chain, j + k)
    decreases k
  {
    if k > 0 {
      WalkRepeats(roots, c, start, chain, i, j, k - 1);
      assert chain[i + k - 1] == c[IdAt(start, chain, i + k - 1)];
      assert chain[j + k - 1] == c[IdAt(start, chain, j + k - 1)];
    }
  }

  /** A walk that reaches a root has met no id twice, the root's included. */
  lemma RootedWalkDoesNotRepeat(roots: seq<Root>, c: Cache, start: CertId, chain: seq<Cert>, i: nat, j: nat)
    requires Collected(roots, Fixed(c), start, chain) && i < j <= |chain|
    requires Find(roots, IdAt(start, chain, |chain|)).Some?
    ensures IdAt(start, chain, i) != IdAt(start, chain, j)
  {
    if IdAt(start, chain, i) == IdAt(start, chain, j) {
      WalkRepeats(roots, c, start, chain, i, j, |chain| - j);
    }
  }

  /**
   With a fixed cache, the certificates of a built chain have pairwise distinct ids,
   none of them a root's and none the leaf's, if the leaf is itself cached.
   */
  lemma BuiltChainIsAcyclic(roots: seq<Root>, c: Cache, leaf: Cert, root: Root, chain: seq<Cert>)
    requires Keyed(c) && Build(roots, Fixed(c), leaf.issuer) == Built(root, chain)
    ensures forall i, j :: 0 <= i < j < |chain| ==> chain[i].id != chain[j].id
    ensures forall i, r :: 0 <= i < |chain| && r in roots ==> chain[i].id != r.id
    ensures leaf.id in c && c[leaf.id] == leaf ==> forall i :: 0 <= i < |chain| ==> chain[i].id != leaf.id
  {
    var start := leaf.issuer;
    ContinueCollects(roots, Fixed(c), start, []);
    forall i | 0 <= i < |chain| ensures chain[i].id == IdAt(start, chain, i) && Find(roots, chain[i].id).None? {
      assert chain[i] == c[IdAt(start, chain, i)];
    }
    forall i, j | 0 <= i < j < |chain| ensures chain[i].id != chain[j].id {
      RootedWalkDoesNotRepeat(roots, c, start, chain, i, j);
    }
    if leaf.id in c && c[leaf.id] == leaf {
      forall i | 0 <= i < |chain| ensures chain[i].id != leaf.id {
        RootedWalkDoesNotRepeat(roots, c, start, chain, 0, i + 1);
        assert chain[i] == c[chain[i].id];
      }
    }
  }

  /**
   Ids that are cached, not roots', and only ever lead to each other: a cycle of issuers
   and whatever leads into it.
   */
  ghost predicate RootlessLoop(roots: seq<Root>, c: Cache, ids: set<CertId>) {
    forall id :: id in ids ==> id in c && Find(roots, id).None? && c[id].issuer in ids
  }

  /** Any issuer cycle that avoids the roots is cut off as too long, never followed for ever. */
  lemma LoopIsTooLong(roots: seq<Root>, c: Cache, start: CertId, ids: set<CertId>)
    requires RootlessLoop(roots, c, ids) && start in ids
    ensures Build(roots, Fixed(c), start).ExcessivelyLongChain?
  {
    ContinueCollects(roots, Fixed(c), start, []);
    var t := Trail(roots, Fixed(c), start);
    LoopIsNotLeft(roots, c, start, ids, t, |t|);
  }

  lemma {:induction false} LoopIsNotLeft(roots: seq<Root>, c: Cache, start: CertId, ids: set<CertId>, chain: seq<Cert>, i: nat)
    requires RootlessLoop(roots, c, ids) && start in ids && Collected(roots, Fixed(c), start, chain) && i <= |chain|
    ensures IdAt(start, chain, i) in ids
  {
    if i > 0 {
      LoopIsNotLeft(roots, c, start, ids, chain, i - 1);
      assert chain[i - 1] == c[IdAt(start, chain, i - 1)];
    }
  }

  /** The two caches hold the same for every id the walk over `a` resolves. */
  ghost predicate AgreeOnTrail(roots: seq<Root>, a: Cache, b: Cache, start: CertId) {
    var t := Trail(roots, Fixed(a), start);
    forall i :: 0 <= i < |t| ==> IdAt(start, t, i) in b && b[IdAt(start, t, i)] == t[i]
  }

  lemma TrailCarriesOver(roots: seq<Root>, a: Cache, b: Cache, start: CertId)
    requires AgreeOnTrail(roots, a, b, start)
    ensures Collected(roots, Fixed(a), start, Trail(roots, Fixed(a), start))
    ensures Collected(roots, Fixed(b), start, Trail(roots, Fixed(a), start))
    ensures Trail(roots, Fixed(a), start) <= Trail(roots, Fixed(b), start)
  {
    ContinueCollects(roots, Fixed(a), start, []);
    CollectedIsPrefixOfTrail(roots, Fixed(b), start, Trail(roots, Fixed(a), start));
  }

  /** Certificates off the walk never matter: the result is the same if no missing id appeared. */
  lemma OffTrailChangesNothing(roots: seq<Root>, a: Cache, b: Cache, start: CertId)
    requires AgreeOnTrail(roots, a, b, start)
    requires Build(roots, Fixed(a), start).MissingIntermediate? ==> Build(roots, Fixed(a), start).id !in b
    ensures Build(roots, Fixed(b), start) == Build(roots, Fixed(a), start)
  {
    TrailCarriesOver(roots, a, b, start);
    ContinueCollects(roots, Fixed(a), start, []);
    CollectedIsPrefixOfTrail(roots, Fixed(b), start, Trail(roots, Fixed(a), start));
  }

  /** Evicting certificates never changes a result into another: it can only make one missing. */
  lemma EvictionOnlyHides(roots: seq<Root>, big: Cache, small: Cache, start: CertId)
    requires forall k :: k in small ==> k in big && big[k] == small[k]
    ensures var r := Build(roots, Fixed(small), start);
            r == Build(roots, Fixed(big), start) || (r.MissingIntermediate? && r.id in big && r.id !in small)
  {
    ContinueCollects(roots, Fixed(small), start, []);
    var r := Build(roots, Fixed(small), start);
    if !(r.MissingIntermediate? && r.id in big) {
      OffTrailChangesNothing(roots, small, big, start);
    }
  }
}
