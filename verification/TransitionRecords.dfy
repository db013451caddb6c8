/** Which PREPARED records `commit` writes, and when its own validation accepts them. */
module TransitionRecords {
  import opened Prelude
  import opened TransitionModel

  /** The caller's claim-graph digest is the digest of the graph target the trusted state will name. */
  predicate RequestBindsGraph(req: Request)
    requires req.trusted in req.targets && req.targets[req.trusted].Document?
  {
    var others := set uri | uri in req.targets && uri != req.trusted
                            && Sha256(req.targets[uri]) == req.claimGraphSha256;
    match req.targets[req.trusted].doc.claimGraph
    case Some(uri) => uri in others
    case None => |others| == 1
  }

  predicate Committable(req: Request) {
    req.trusted in req.targets && req.targets[req.trusted].Document?
  }

  // ---------- staging ----------

  lemma {:induction false} Staged(d: Disk, live: map<Uri, Content>, id: Id, targets: map<Uri, Content>, uris: seq<Uri>)
    requires forall uri :: uri in uris ==> uri in targets
    ensures var d' := ApplyAll(d, SnapshotWrites(live, id, targets, uris));
            && d'.live == d.live && d'.ledger == d.ledger
            && (forall i :: 0 <= i < |uris| ==>
                  && SnapshotMatches(d'.bundles, id, BeforeFile(i), Sha256(Read(live, uris[i])))
                  && SnapshotMatches(d'.bundles, id, AfterFile(i), Sha256(targets[uris[i]])))
            && (forall other, name :: other != id ==>
                  ((other, name) in d'.bundles <==> (other, name) in d.bundles)
                  && ((other, name) in d.bundles ==> d'.bundles[(other, name)] == d.bundles[(other, name)]))
  {
    if uris != [] {
      var n := |uris| - 1;
      Staged(d, live, id, targets, uris[..n]);
      var before, after := WriteSnapshot(id, BeforeFile(n), Read(live, uris[n])),
                           WriteSnapshot(id, AfterFile(n), targets[uris[n]]);
      ApplyAllConcat(d, SnapshotWrites(live, id, targets, uris[..n]), [before, after]);
      var here := ApplyAll(d, SnapshotWrites(live, id, targets, uris[..n]));
      ApplyTwo(here, before, after);
    }
  }

  // ---------- acceptance ----------

  lemma {:induction false} TrustedTargetsSingle(bundles: Bundles, id: Id, targets: seq<Target>, i: nat)
    requires forall j :: 0 <= j < |targets| ==> (CarriesId(bundles, id, targets[j]) <==> j == i)
    ensures TrustedTargets(bundles, id, targets) == if i < |targets| then [targets[i]] else []
  {
    if targets != [] {
      var n := |targets| - 1;
      assert forall j :: 0 <= j < n ==> targets[..n][j] == targets[j];
      TrustedTargetsSingle(bundles, id, targets[..n], i);
    }
  }

  lemma {:induction false} GraphTargetsExact(targets: seq<Target>, trusted: Uri, sha256: Digest)
    requires DistinctPaths(targets)
    ensures var r := GraphTargets(targets, trusted, sha256);
            && DistinctPaths(r)
            && forall t :: t in targets && t.path != trusted && t.after == sha256 ==> t in r
  {
    if targets != [] {
      var n := |targets| - 1;
      GraphTargetsExact(targets[..n], trusted, sha256);
      assert targets == targets[..n] + [targets[n]];
      forall t | t in GraphTargets(targets[..n], trusted, sha256) ensures t.path != targets[n].path {
        assert t in targets[..n];
      }
    }
  }

  lemma {:induction false} PreconditionListMap(ps: map<Uri, Digest>, uris: seq<Uri>)
    requires forall uri :: uri in uris ==> uri in ps
    ensures PreconditionMap(PreconditionList(ps, uris)) == map uri | uri in uris :: ps[uri]
  {
    if uris != [] {
      var n := |uris| - 1;
      PreconditionListMap(ps, uris[..n]);
      assert PreconditionList(ps, uris)[..n] == PreconditionList(ps, uris[..n]);
      assert uris == uris[..n] + [uris[n]];
    }
  }

  lemma PreconditionListDistinct(ps: map<Uri, Digest>, uris: seq<Uri>)
    requires StrictlySorted(uris) && forall uri :: uri in uris ==> uri in ps
    ensures DistinctPreconditions(PreconditionList(ps, uris))
  {
    SortedIsDistinct(uris);
  }

  lemma TargetRecordFacts(live: map<Uri, Content>, targets: map<Uri, Content>, uris: seq<Uri>)
    requires Distinct(uris) && (forall uri :: uri in uris <==> uri in targets)
    ensures var r := TargetRecords(live, targets, uris);
            && Paths(r) == targets.Keys && DistinctPaths(r)
            && forall t :: t in r ==> t.before == Sha256(Read(live, t.path)) && t.after == Sha256(targets[t.path])
  {
    var r := TargetRecords(live, targets, uris);
    forall uri | uri in targets ensures uri in Paths(r) {
      assert uri in uris;
      var i :| 0 <= i < |uris| && uris[i] == uri;
      assert r[i].path == uri;
    }
  }

  lemma PreconditionFacts(ps: map<Uri, Digest>, uris: seq<Uri>)
    requires StrictlySorted(uris) && (forall uri :: uri in uris <==> uri in ps)
    ensures var r := PreconditionList(ps, uris);
            && DistinctPreconditions(r) && PreconditionMap(r) == ps
            && forall p :: p in r <==> p.path in ps && p.sha256 == ps[p.path]
  {
    var r := PreconditionList(ps, uris);
    PreconditionListMap(ps, uris);
    PreconditionListDistinct(ps, uris);
    assert (map uri | uri in uris :: ps[uri]) == ps;
    forall p ensures p in r <==> p.path in ps && p.sha256 == ps[p.path] {
      if p.path in ps && p.sha256 == ps[p.path] {
        assert p.path in uris;
        var i :| 0 <= i < |uris| && uris[i] == p.path;
        assert r[i] == p;
      }
    }
  }

  /** `r` lists the targets of `req`, stamped, as found in `live`. */
  ghost predicate Records(live: map<Uri, Content>, req: Request, targets: map<Uri, Content>, r: seq<Target>) {
    && Paths(r) == targets.Keys == req.targets.Keys && DistinctPaths(r) && req.trusted in Paths(r)
    && (forall t :: t in r ==> t.before == Sha256(Read(live, t.path)) && t.after == Sha256(targets[t.path]))
    && (forall uri :: uri in targets && uri != req.trusted ==> targets[uri] == req.targets[uri])
  }

  lemma StampedKeys(live: map<Uri, Content>, req: Request)
    requires Committable(req)
    ensures StampedTargets(live, req).Keys == req.targets.Keys
    ensures forall uri :: uri in req.targets && uri != req.trusted ==>
              StampedTargets(live, req)[uri] == req.targets[uri]
  {
  }

  lemma RecordFacts(live: map<Uri, Content>, req: Request)
    requires Committable(req)
    ensures Records(live, req, StampedTargets(live, req), PreparedRecord(live, req).targets)
  {
    var targets := StampedTargets(live, req);
    StampedKeys(live, req);
    SortedIsDistinct(SortSet(targets.Keys));
    TargetRecordFacts(live, targets, SortSet(targets.Keys));
  }

  /** Only the trusted state can carry the id: any other target's content is hashed into it. */
  lemma OnlyTrustedCarriesId(live: map<Uri, Content>, req: Request, bundles: Bundles, t: Target)
    requires Committable(req) && t in PreparedRecord(live, req).targets
    requires SnapshotMatches(bundles, RequestId(live, req), t.afterSnapshot, t.after)
    ensures CarriesId(bundles, RequestId(live, req), t) <==> t.path == req.trusted
  {
    RecordFacts(live, req);
    var id := RequestId(live, req);
    var targets := StampedTargets(live, req);
    var after := bundles[(id, t.afterSnapshot)];
    assert after == targets[t.path];
    if t.path != req.trusted && CarriesId(bundles, id, t) {
      NoSelfReference(id, t.path, after.doc);
    }
  }

  /** A file hashed into an id cannot carry that id. */
  lemma NoSelfReference(id: Id, uri: Uri, doc: Doc)
    ensures !(uri in id.seed.after && id.seed.after[uri] == Sha256(Document(doc)) && doc.lastTransitionId == Some(id))
  {
  }

  lemma TrustedTargetIs(live: map<Uri, Content>, req: Request, bundles: Bundles)
    requires Committable(req)
    requires SnapshotsValid(bundles, RequestId(live, req), PreparedRecord(live, req).targets)
    ensures var r := PreparedRecord(live, req);
            && req.trusted in Paths(r.targets)
            && var trusted := Lookup(r.targets, req.trusted);
            && TrustedTargets(bundles, r.id, r.targets) == [trusted]
            && (r.id, trusted.afterSnapshot) in bundles
            && bundles[(r.id, trusted.afterSnapshot)] == StampedTargets(live, req)[req.trusted]
  {
    var r := PreparedRecord(live, req);
    RecordFacts(live, req);
    forall t | t in r.targets ensures CarriesId(bundles, r.id, t) <==> t.path == req.trusted {
      OnlyTrustedCarriesId(live, req, bundles, t);
    }
    SingleTrusted(bundles, r.id, r.targets, req.trusted);
  }

  lemma SingleTrusted(bundles: Bundles, id: Id, targets: seq<Target>, trusted: Uri)
    requires trusted in Paths(targets) && DistinctPaths(targets)
    requires forall t :: t in targets ==> (CarriesId(bundles, id, t) <==> t.path == trusted)
    ensures TrustedTargets(bundles, id, targets) == [Lookup(targets, trusted)]
  {
    var t := Lookup(targets, trusted);
    var i :| 0 <= i < |targets| && targets[i] == t;
    TrustedTargetsSingle(bundles, id, targets, i);
  }

  /** The record `commit` appends passes its own validation exactly when the request binds its claim graph. */
  lemma RecordAcceptedIff(live: map<Uri, Content>, req: Request, bundles: Bundles)
    requires Committable(req)
    requires SnapshotsValid(bundles, RequestId(live, req), PreparedRecord(live, req).targets)
    ensures PreparedAccepted(bundles, PreparedRecord(live, req)) <==> RequestBindsGraph(req)
  {
    var r := PreparedRecord(live, req);
    var targets := StampedTargets(live, req);
    RecordFacts(live, req);
    TrustedTargetIs(live, req, bundles);
    PreconditionFacts(req.preconditions, SortSet(req.preconditions.Keys));
    SeedRecomputed(live, req, targets, r.targets, r.preconditions);
    GraphBoundIff(live, req, targets, r.targets);
  }

  lemma SeedRecomputed(live: map<Uri, Content>, req: Request, targets: map<Uri, Content>, r: seq<Target>,
                       ps: seq<Precondition>)
    requires Records(live, req, targets, r) && PreconditionMap(ps) == req.preconditions
    ensures RecordSeed(req.authorization, ps, r, req.trusted, req.claimGraphSha256) == RequestSeed(live, req)
  {
    BeforeRecomputed(live, req, targets, r, ps);
    AfterRecomputed(live, req, targets, r, ps);
  }

  lemma RecordAt(live: map<Uri, Content>, req: Request, targets: map<Uri, Content>, r: seq<Target>, uri: Uri)
    requires Records(live, req, targets, r) && uri in Paths(r)
    ensures Lookup(r, uri).before == Sha256(Read(live, uri)) && Lookup(r, uri).after == Sha256(targets[uri])
  {
  }

  lemma BeforeRecomputed(live: map<Uri, Content>, req: Request, targets: map<Uri, Content>, r: seq<Target>,
                         ps: seq<Precondition>)
    requires Records(live, req, targets, r)
    ensures RecordSeed(req.authorization, ps, r, req.trusted, req.claimGraphSha256).before
         == RequestSeed(live, req).before
  {
    assert Paths(r) == req.targets.Keys;
    forall uri | uri in Paths(r) ensures Lookup(r, uri).before == Sha256(Read(live, uri)) {
      RecordAt(live, req, targets, r, uri);
    }
  }

  lemma AfterRecomputed(live: map<Uri, Content>, req: Request, targets: map<Uri, Content>, r: seq<Target>,
                        ps: seq<Precondition>)
    requires Records(live, req, targets, r)
    ensures RecordSeed(req.authorization, ps, r, req.trusted, req.claimGraphSha256).after
         == RequestSeed(live, req).after
  {
    assert Paths(r) == req.targets.Keys;
    forall uri | uri in Paths(r) && uri != req.trusted ensures Lookup(r, uri).after == Sha256(req.targets[uri]) {
      RecordAt(live, req, targets, r, uri);
    }
  }

  lemma GraphBoundIff(live: map<Uri, Content>, req: Request, targets: map<Uri, Content>, r: seq<Target>)
    requires Committable(req) && Records(live, req, targets, r)
    requires targets[req.trusted].Document? && targets[req.trusted].doc.claimGraphSha256 == Some(req.claimGraphSha256)
    requires targets[req.trusted].doc.claimGraph == req.targets[req.trusted].doc.claimGraph
    ensures BindsGraph(targets[req.trusted].doc, r, req.trusted) <==> RequestBindsGraph(req)
  {
    var sha256 := req.claimGraphSha256;
    var others := set uri | uri in req.targets && uri != req.trusted && Sha256(req.targets[uri]) == sha256;
    assert Lookup(r, req.trusted).after != sha256;
    if targets[req.trusted].doc.claimGraph.None? {
      UniqueGraphIff(r, req.trusted, sha256, others);
    }
  }

  lemma DistinctHeads(targets: seq<Target>)
    requires |targets| > 1 && DistinctPaths(targets)
    ensures targets[0].path != targets[1].path
  {
  }

  lemma UniqueGraphIff(r: seq<Target>, trusted: Uri, sha256: Digest, others: set<Uri>)
    requires DistinctPaths(r)
    requires others == set t | t in r && t.path != trusted && t.after == sha256 :: t.path
    ensures var matching := GraphTargets(r, trusted, sha256);
            && (|matching| == 1 <==> |others| == 1)
            && (|matching| == 1 ==> matching[0].path in Paths(r) && Lookup(r, matching[0].path).after == sha256)
  {
    var matching := GraphTargets(r, trusted, sha256);
    GraphTargetsExact(r, trusted, sha256);
    forall i | 0 <= i < |matching| ensures matching[i].path in others {
      assert matching[i] in matching;
    }
    if |others| == 1 {
      var uri :| uri in others;
      SingletonOf(others, uri);
      var t :| t in r && t.path != trusted && t.after == sha256 && t.path == uri;
      assert t in matching;
      if |matching| > 1 {
        DistinctHeads(matching);
      }
    }
    if |matching| == 1 {
      var t := matching[0];
      assert t in matching && t.path in others;
      assert others == {t.path};
      var i :| 0 <= i < |r| && r[i] == t;
      var j :| 0 <= j < |r| && r[j] == Lookup(r, t.path);
    }
  }
}
