/**
 The in-memory certificate cache and the trust store over it: batch insertion,
 validation up to the built chain, and the fetch-and-retry loop a client runs on
 the missing ids that validation reports.
 */
module TrustStore {
  import opened Base
  import opened CertChain

  datatype Verdict = MissingLeafCert(id: CertId) | Chain(result: BuildResult)

  /**
   validate, up to the candidate chain it builds, over a shared cache: `first` is what
   it holds when the leaf is looked up, `views` what it holds at each later lookup.
   */
  function ValidateOver(roots: seq<Root>, first: Cache, views: Views, id: CertId): Verdict {
    if id !in first then MissingLeafCert(id) else Chain(Build(roots, views, first[id].issuer))
  }

  /** validate over a cache that does not change meanwhile. */
  function Validate(roots: seq<Root>, c: Cache, id: CertId): Verdict { ValidateOver(roots, c, Fixed(c), id) }

  /** The certificate id a client has to fetch before it can retry. */
  function Wanted(v: Verdict): Option<CertId> {
    match v
    case MissingLeafCert(id) => Some(id)
    case Chain(MissingIntermediate(id)) => Some(id)
    case Chain(_) => None
  }

  /** Insert each certificate under its own id; `evicted[k]` is what the cache drops at the k-th insert. */
  function AddAll(c: Cache, certs: seq<Cert>, evicted: seq<set<CertId>>): Cache
    requires |certs| == |evicted|
  {
    if certs == [] then c
    else
      var n := |certs| - 1;
      AddAll(c, certs[..n], evicted[..n])[certs[n].id := certs[n]] - evicted[n]
  }

  /** Inserting keeps every certificate under its own id, and invents none. */
  lemma {:induction false} AddAllKeepsKeys(c: Cache, certs: seq<Cert>, evicted: seq<set<CertId>>)
    requires |certs| == |evicted| && Keyed(c)
    ensures Keyed(AddAll(c, certs, evicted))
    ensures forall k :: k in AddAll(c, certs, evicted) ==>
              AddAll(c, certs, evicted)[k] in certs || (k in c && AddAll(c, certs, evicted)[k] == c[k])
  {
    if certs != [] {
      var n := |certs| - 1;
      AddAllKeepsKeys(c, certs[..n], evicted[..n]);
    }
  }

  class MemoryCertCache {
    var certs: Cache

    ghost predicate Valid() reads this { Keyed(certs) }

    constructor ()
      ensures Valid() && certs == map[]
    {
      certs := map[];
    }

    /** Which entries the bounded cache gives up, the new one included, is `evicted`. */
    method Insert(cert: Cert, evicted: set<CertId>)
      requires Valid()
      modifies this
      ensures Valid() && certs == old(certs)[cert.id := cert] - evicted
    {
      certs := certs[cert.id := cert] - evicted;
    }

    method Get(id: CertId) returns (r: Option<Cert>)
      requires Valid()
      ensures r == if id in certs then Some(certs[id]) else None
      ensures r.Some? ==> r.value.id == id
    {
      r := if id in certs then Some(certs[id]) else None;
    }

    method Remove(id: CertId)
      requires Valid()
      modifies this
      ensures Valid() && certs == old(certs) - {id}
    {
      certs := certs - {id};
    }
  }

  class Store {
    const roots: seq<Root>
    const cache: MemoryCertCache

    constructor (roots: seq<Root>, cache: MemoryCertCache)
      ensures this.roots == roots && this.cache == cache
    {
      this.roots, this.cache := roots, cache;
    }

    method Add(certs: seq<Cert>, evicted: seq<set<CertId>>)
      requires |certs| == |evicted| && cache.Valid()
      modifies cache
      ensures cache.Valid() && cache.certs == AddAll(old(cache.certs), certs, evicted)
    {
      for k := 0 to |certs|
        invariant cache.Valid() && cache.certs == AddAll(old(cache.certs), certs[..k], evicted[..k])
      {
        cache.Insert(certs[k], evicted[k]);
        assert certs[..k + 1][..k] == certs[..k] && evicted[..k + 1][..k] == evicted[..k];
      }
      assert certs[..|certs|] == certs && evicted[..|evicted|] == evicted;
    }

    /** `views` is what other users of the cache leave in it for each lookup of the walk. */
    method ValidateSigner(id: CertId, views: Views) returns (v: Verdict)
      requires cache.Valid()
      ensures v == ValidateOver(roots, cache.certs, views, id)
    {
      var cert := cache.Get(id);
      if cert.None? { return MissingLeafCert(id); }
      var r := BuildUnverifiedChainFor(roots, cert.value, views);
      v := Chain(r);
    }
  }

  /**
   However the cache changes between the lookups, a chain that validation builds leads
   from a certificate with the signer's id, issuer to subject, to a configured root.
   */
  lemma ValidatedChainIsLinked(roots: seq<Root>, first: Cache, views: Views, id: CertId, root: Root, chain: seq<Cert>)
    requires Keyed(first) && forall k :: 0 <= k < |views| ==> Keyed(views[k])
    requires ValidateOver(roots, first, views, id) == Chain(Built(root, chain))
    ensures id in first && first[id].id == id && |chain| <= 6 && root in roots
    ensures forall i :: 0 <= i < |chain| ==> chain[i].id == IdAt(first[id].issuer, chain, i)
    ensures root.id == IdAt(first[id].issuer, chain, |chain|)
  {
    BuiltChainIsLinked(roots, views, first[id], root, chain);
  }

  // ---- Adding a chain makes it valid ----

  function NoEvictions(n: nat): seq<set<CertId>> { seq(n, _ => {}) }

  ghost predicate OneCertPerId(certs: seq<Cert>) { forall a, b :: a in certs && b in certs && a.id == b.id ==> a == b }

  lemma {:induction false} AddedIsFound(c: Cache, certs: seq<Cert>, x: Cert)
    requires OneCertPerId(certs) && x in certs
    ensures var d := AddAll(c, certs, NoEvictions(|certs|)); x.id in d && d[x.id] == x
  {
    var n := |certs| - 1;
    assert NoEvictions(|certs|)[..n] == NoEvictions(n);
    if x != certs[n] {
      assert x in certs[..n];
      assert OneCertPerId(certs[..n]);
      AddedIsFound(c, certs[..n], x);
    }
  }

  /** `leaf`, then `chain` in order, each issued by the next, the last by `root`, no id a root's before that. */
  ghost predicate LinkedTo(roots: seq<Root>, leaf: Cert, chain: seq<Cert>, root: Root) {
    && (forall i :: 0 <= i < |chain| ==> chain[i].id == IdAt(leaf.issuer, chain, i) && Find(roots, chain[i].id).None?)
    && Find(roots, IdAt(leaf.issuer, chain, |chain|)) == Some(root)
  }

  /**
   Whatever order a linked chain and its leaf are added in, together with anything else
   that reuses no id, validation builds exactly that chain if it has at most six
   intermediates, and reports it as excessively long if it has more.
   */
  lemma AddedChainValidates(roots: seq<Root>, c: Cache, certs: seq<Cert>, leaf: Cert, chain: seq<Cert>, root: Root)
    requires OneCertPerId(certs) && leaf in certs && (forall x :: x in chain ==> x in certs)
    requires LinkedTo(roots, leaf, chain, root)
    ensures Validate(roots, AddAll(c, certs, NoEvictions(|certs|)), leaf.id) ==
            Chain(if |chain| <= 6 then Built(root, chain) else ExcessivelyLongChain)
  {
    var d := AddAll(c, certs, NoEvictions(|certs|));
    AddedIsFound(c, certs, leaf);
    forall i | 0 <= i < |chain| ensures chain[i].id in d && d[chain[i].id] == chain[i] {
      AddedIsFound(c, certs, chain[i]);
    }
    hide AddAll;
    if |chain| <= 6 {
      assert Collected(roots, Fixed(d), leaf.issuer, chain);
      BuildCharacterised(roots, Fixed(d), leaf.issuer);
    } else {
      CachedChainTooLong(roots, d, leaf, chain);
    }
  }

  lemma CachedChainTooLong(roots: seq<Root>, d: Cache, leaf: Cert, chain: seq<Cert>)
    requires |chain| > 6
    requires forall i :: 0 <= i < |chain| ==> chain[i].id == IdAt(leaf.issuer, chain, i) && Find(roots, chain[i].id).None?
    requires forall i :: 0 <= i < |chain| ==> chain[i].id in d && d[chain[i].id] == chain[i]
    ensures Build(roots, Fixed(d), leaf.issuer).ExcessivelyLongChain?
  {
    var walked := chain[..6];
    forall i | 0 <= i < 6
      ensures var id := IdAt(leaf.issuer, walked, i); Find(roots, id).None? && id in d && walked[i] == d[id]
    {
      assert IdAt(leaf.issuer, walked, i) == IdAt(leaf.issuer, chain, i) == chain[i].id;
    }
    assert IdAt(leaf.issuer, walked, 6) == chain[6].id;
    CollectedIsPrefixOfTrail(roots, Fixed(d), leaf.issuer, walked);
  }

  // ---- Fetch and retry ----

  /** How far validation gets: the leaf, and the intermediates after it. */
  function Progress(roots: seq<Root>, c: Cache, id: CertId): nat {
    if id !in c then 0 else 1 + |Trail(roots, Fixed(c), c[id].issuer)|
  }

  /** `d` still holds everything validation resolved in `c`. */
  ghost predicate Retained(roots: seq<Root>, c: Cache, d: Cache, id: CertId) {
    id in c ==> id in d && d[id] == c[id] && AgreeOnTrail(roots, c, d, c[id].issuer)
  }

  /** One round: the id that was missing in `c` is present in `d`, and nothing resolved before was lost. */
  ghost predicate Round(roots: seq<Root>, c: Cache, d: Cache, id: CertId) {
    var w := Wanted(Validate(roots, c, id));
    w.Some? && w.value in d && Retained(roots, c, d, id)
  }

  /** Inserting a certificate with the reported id is a round, whatever else it says. */
  lemma InsertMakesRound(roots: seq<Root>, c: Cache, cert: Cert, id: CertId)
    requires Wanted(Validate(roots, c, id)) == Some(cert.id)
    ensures Round(roots, c, c[cert.id := cert], id)
  {
    if id in c { ContinueCollects(roots, Fixed(c), c[id].issuer, []); }
  }

  lemma WantedMeansRoomLeft(roots: seq<Root>, c: Cache, id: CertId)
    requires Wanted(Validate(roots, c, id)).Some?
    ensures Progress(roots, c, id) <= MAX_INTERMEDIATES
  {
  }

  /** Each round gets strictly further. */
  lemma RoundMakesProgress(roots: seq<Root>, c: Cache, d: Cache, id: CertId)
    requires Round(roots, c, d, id)
    ensures Progress(roots, d, id) > Progress(roots, c, id)
  {
    if id in c {
      var start := c[id].issuer;
      var t := Trail(roots, Fixed(c), start);
      TrailCarriesOver(roots, c, d, start);
      CollectedIsPrefixOfTrail(roots, Fixed(d), start, t);
    }
  }

  /** A retry loop: between one cache and the next there is one round. */
  ghost predicate Retries(roots: seq<Root>, caches: seq<Cache>, id: CertId) {
    forall k :: 0 <= k < |caches| - 1 ==> Round(roots, caches[k], caches[k + 1], id)
  }

  lemma {:induction false} ProgressAfter(roots: seq<Root>, caches: seq<Cache>, id: CertId, k: nat)
    requires Retries(roots, caches, id) && k < |caches|
    ensures Progress(roots, caches[k], id) >= k
  {
    if k > 0 {
      ProgressAfter(roots, caches, id, k - 1);
      RoundMakesProgress(roots, caches[k - 1], caches[k], id);
    }
  }

  /**
   Fetch-and-retry converges: after at most seven fetched certificates (the leaf and
   six intermediates) validation reports nothing missing, whatever was fetched.
   */
  lemma RetriesConverge(roots: seq<Root>, caches: seq<Cache>, id: CertId, k: nat)
    requires Retries(roots, caches, id) && k < |caches| && (var v := Validate(roots, caches[k], id); v.MissingLeafCert? || v.result.MissingIntermediate?)
    ensures k <= 6
  {
    ProgressAfter(roots, caches, id, k);
    WantedMeansRoomLeft(roots, caches[k], id);
  }

  /** The caches of a client that inserts what `fetch` returns for each id reported missing. */
  function Fetching(roots: seq<Root>, c: Cache, id: CertId, fetch: CertId -> Cert, n: nat): seq<Cache>
    decreases n
  {
    if n == 0 || Wanted(Validate(roots, c, id)).None? then [c]
    else [c] + Fetching(roots, AfterFetch(roots, c, id, fetch), id, fetch, n - 1)
  }

  function AfterFetch(roots: seq<Root>, c: Cache, id: CertId, fetch: CertId -> Cert): Cache
    requires Wanted(Validate(roots, c, id)).Some?
  {
    var cert := fetch(Wanted(Validate(roots, c, id)).value);
    c[cert.id := cert]
  }

  lemma {:induction false} FetchingRetries(roots: seq<Root>, c: Cache, id: CertId, fetch: CertId -> Cert, n: nat)
    requires forall x :: fetch(x).id == x
    ensures var caches := Fetching(roots, c, id, fetch, n);
            && caches != [] && caches[0] == c && Retries(roots, caches, id)
            && (|caches| <= n ==> Wanted(Validate(roots, caches[|caches| - 1], id)).None?)
    decreases n
  {
    if n > 0 && Wanted(Validate(roots, c, id)).Some? {
      var d := AfterFetch(roots, c, id, fetch);
      InsertMakesRound(roots, c, fetch(Wanted(Validate(roots, c, id)).value), id);
      FetchingRetries(roots, d, id, fetch, n - 1);
      var rest := Fetching(roots, d, id, fetch, n - 1);
      var caches := [c] + rest;
      forall k | 0 <= k < |caches| - 1 ensures Round(roots, caches[k], caches[k + 1], id) {
        if k > 0 { assert Round(roots, rest[k - 1], rest[k], id); }
      }
    }
  }

  /**
   From any cache, a client that fetches and inserts what is reported missing, from a
   source that returns a certificate with the id asked for, inserts at most seven
   certificates and ends with nothing reported missing.
   */
  lemma FetchingConverges(roots: seq<Root>, c: Cache, id: CertId, fetch: CertId -> Cert)
    requires forall x :: fetch(x).id == x
    ensures var caches := Fetching(roots, c, id, fetch, 7);
            && 1 <= |caches| <= 8
            && var v := Validate(roots, caches[|caches| - 1], id); v.Chain? && !v.result.MissingIntermediate?
  {
    hide Fetching;
    FetchingRetries(roots, c, id, fetch, 7);
    var caches := Fetching(roots, c, id, fetch, 7);
    FetchingLength(roots, c, id, fetch, 7);
    if Wanted(Validate(roots, caches[|caches| - 1], id)).Some? {
      RetriesConverge(roots, caches, id, |caches| - 1);
    }
  }

  lemma {:induction false} FetchingLength(roots: seq<Root>, c: Cache, id: CertId, fetch: CertId -> Cert, n: nat)
    ensures 1 <= |Fetching(roots, c, id, fetch, n)| <= n + 1
    decreases n
  {
    if n > 0 && Wanted(Validate(roots, c, id)).Some? {
      FetchingLength(roots, AfterFetch(roots, c, id, fetch), id, fetch, n - 1);
    }
  }
}
