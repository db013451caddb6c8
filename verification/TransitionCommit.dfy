/** What one commit does to a reachable disk, interrupted anywhere. */
module TransitionCommit {
  import opened Prelude
  import opened TransitionModel
  import opened TransitionRecords
  import opened TransitionRuns
  import opened TransitionCrash
  import opened TransitionTheorems

  /** The request writes managed files only, and the same trusted state as every other. */
  ghost predicate Confined(w: World, req: Request) {
    && req.targets.Keys <= w.managed
    && (Committable(req) ==> req.trusted == w.trusted)
  }

  /** A confined request whose claim-graph digest is that of its graph target. */
  ghost predicate Admissible(w: World, req: Request) {
    Confined(w, req) && (Committable(req) ==> RequestBindsGraph(req))
  }

  /** A precondition of the request names a file it writes only if it writes back what the precondition wants. */
  predicate KeepsPreconditions(req: Request) {
    forall uri :: uri in req.preconditions && uri in req.targets ==>
      uri != req.trusted && Sha256(req.targets[uri]) == req.preconditions[uri]
  }

  /** The checks of `commit` between its two recoveries all pass. */
  predicate Ready(d: Disk, req: Request) {
    req.targets != map[] && RequestPreconditionsHold(d.live, req.preconditions) && Committable(req)
  }

  // ---------- the new id ----------

  lemma {:induction false} PairsIds(ps: seq<Record>, r: Record)
    requires r in Pairs(ps)
    ensures r.id in Ids(ps)
  {
    var n := |ps| - 1;
    assert ps == ps[..n] + [ps[n]];
    if r in Pairs(ps[..n]) {
      PairsIds(ps[..n], r);
    }
  }

  /** On a settled disk the live trusted state carries the id of the last transaction. */
  lemma LiveCarriesLastId(w: World, d: Disk)
    requires Invariant(w, d) && !Pending(d.ledger) && PreparedOf(d.ledger) != []
    ensures var ps := PreparedOf(d.ledger);
            && w.trusted in d.live && d.live[w.trusted].Document?
            && d.live[w.trusted].doc.lastTransitionId == Some(ps[|ps| - 1].id)
  {
    var ps := PreparedOf(d.ledger);
    assert Chained(w, d.bundles, ps, |ps| - 1);
    FinalCarriesLastId(w, d.bundles, ps);
    assert AgreeAt(w.trusted, d.live, Final(w.files, ps));
  }

  lemma FinalCarriesLastId(w: World, bundles: Bundles, ps: seq<Record>)
    requires ps != [] && (forall r :: r in ps ==> r.Prepared?) && Chained(w, bundles, ps, |ps| - 1)
    ensures var files := Final(w.files, ps);
            && w.trusted in w.managed && w.trusted in files && files[w.trusted].Document?
            && files[w.trusted].doc.lastTransitionId == Some(ps[|ps| - 1].id)
  {
    assert ps[..|ps| - 1 + 1] == ps;
    TrustedCarriesLastId(w, bundles, ps, |ps| - 1);
  }

  lemma LastIdIsEarlier(w: World, d: Disk, req: Request)
    requires Invariant(w, d) && !Pending(d.ledger) && Confined(w, req) && Committable(req)
    requires PreparedOf(d.ledger) != []
    ensures var ps := PreparedOf(d.ledger);
            ps[|ps| - 1].id < RequestId(d.live, req)
  {
    var ps := PreparedOf(d.ledger);
    LiveCarriesLastId(w, d);
    HashedIntoIsEarlier(ps[|ps| - 1].id, RequestId(d.live, req), w.trusted, d.live[w.trusted].doc);
  }

  /** A commit never computes an id the ledger already holds. */
  lemma NewIdIsNew(w: World, d: Disk, req: Request)
    requires Invariant(w, d) && !Pending(d.ledger) && Confined(w, req) && Committable(req)
    ensures RequestId(d.live, req) !in Ids(PreparedOf(d.ledger))
    ensures !CommittedIn(d.ledger, RequestId(d.live, req))
  {
    var ps, id := PreparedOf(d.ledger), RequestId(d.live, req);
    forall r | r in ps ensures r.id != id {
      var k :| 0 <= k < |ps| && ps[k] == r;
      LastIdIsEarlier(w, d, req);
      if k < |ps| - 1 {
        IdsIncrease(w, d.bundles, ps, k, |ps| - 1);
      }
    }
    forall r | r in d.ledger && r.Committed? ensures r.id != id {
      PairsIds(ps, r);
    }
  }

  // ---------- staging ----------

  lemma {:induction false} StagingThroughout(p: Disk -> bool, d: Disk, live: map<Uri, Content>, id: Id,
                                             targets: map<Uri, Content>, uris: seq<Uri>)
    requires p(d) && forall uri :: uri in uris ==> uri in targets
    requires forall here, name, content {:trigger p(Apply(here, WriteSnapshot(id, name, content)))} ::
               p(here) && here.ledger == d.ledger ==> p(Apply(here, WriteSnapshot(id, name, content)))
    ensures Throughout(p, d, SnapshotWrites(live, id, targets, uris))
  {
    if uris == [] {
      assert ApplyAll(d, [][..0]) == d;
    } else {
      var n := |uris| - 1;
      var ws := SnapshotWrites(live, id, targets, uris[..n]);
      var before, after := WriteSnapshot(id, BeforeFile(n), Read(live, uris[n])),
                           WriteSnapshot(id, AfterFile(n), targets[uris[n]]);
      StagingThroughout(p, d, live, id, targets, uris[..n]);
      ThroughoutEnd(p, d, ws);
      Staged(d, live, id, targets, uris[..n]);
      assert p(Apply(ApplyAll(d, ws), before));
      ThroughoutNext(p, d, ws, before);
      ApplyAllConcat(d, ws, [before]);
      ApplyOne(ApplyAll(d, ws), before);
      assert p(Apply(ApplyAll(d, ws + [before]), after));
      ThroughoutNext(p, d, ws + [before], after);
      assert ws + [before] + [after] == ws + [before, after];
    }
  }

  function StageWrites(live: map<Uri, Content>, req: Request): seq<Write>
    requires Committable(req)
  {
    var targets := StampedTargets(live, req);
    SnapshotWrites(live, RequestId(live, req), targets, SortSet(targets.Keys))
  }

  lemma StagingKeeps(w: World, d: Disk, req: Request)
    requires Invariant(w, d) && !Pending(d.ledger) && Confined(w, req) && Committable(req)
    ensures Throughout(Keeps(w), d, StageWrites(d.live, req))
  {
    var id := RequestId(d.live, req);
    NewIdIsNew(w, d, req);
    forall here, name, content | Keeps(w)(here) && here.ledger == d.ledger
      ensures Keeps(w)(Apply(here, WriteSnapshot(id, name, content)))
    {
      assert Legal(w, here, WriteSnapshot(id, name, content));
      LegalKeepsInvariant(w, here, WriteSnapshot(id, name, content));
    }
    var targets := StampedTargets(d.live, req);
    StagingThroughout(Keeps(w), d, d.live, id, targets, SortSet(targets.Keys));
  }

  lemma StagedRecordsValid(d: Disk, live: map<Uri, Content>, id: Id, targets: map<Uri, Content>, uris: seq<Uri>)
    requires Distinct(uris) && forall uri :: uri in uris ==> uri in targets
    ensures var here := ApplyAll(d, SnapshotWrites(live, id, targets, uris));
            && SnapshotsValid(here.bundles, id, TargetRecords(live, targets, uris))
            && here.live == d.live && here.ledger == d.ledger
  {
    Staged(d, live, id, targets, uris);
    var bundles, r := ApplyAll(d, SnapshotWrites(live, id, targets, uris)).bundles, TargetRecords(live, targets, uris);
    forall t | t in r
      ensures SnapshotMatches(bundles, id, t.beforeSnapshot, t.before)
              && SnapshotMatches(bundles, id, t.afterSnapshot, t.after)
    {
      var i :| 0 <= i < |uris| && r[i] == t;
    }
  }

  lemma StagedSnapshotsValid(d: Disk, req: Request)
    requires Committable(req)
    ensures var here := ApplyAll(d, StageWrites(d.live, req));
            var r := PreparedRecord(d.live, req);
            && SnapshotsValid(here.bundles, r.id, r.targets)
            && here.live == d.live && here.ledger == d.ledger
  {
    var targets := StampedTargets(d.live, req);
    SortedIsDistinct(SortSet(targets.Keys));
    StagedRecordsValid(d, d.live, RequestId(d.live, req), targets, SortSet(targets.Keys));
  }

  /** The record of a confined request continues the ledger, whether its graph is bound or not. */
  lemma StagedContinues(w: World, d: Disk, here: Disk, req: Request)
    requires Invariant(w, d) && !Pending(d.ledger) && Confined(w, req) && Committable(req)
    requires here.live == d.live && here.ledger == d.ledger
    requires SnapshotsValid(here.bundles, RequestId(d.live, req), PreparedRecord(d.live, req).targets)
    ensures var ps := PreparedOf(d.ledger);
            Continues(w, here.bundles, ps + [PreparedRecord(d.live, req)], |ps|)
  {
    var ps, r := PreparedOf(d.ledger), PreparedRecord(d.live, req);
    RecordFacts(d.live, req);
    TrustedTargetIs(d.live, req, here.bundles);
    assert Lookup(r.targets, w.trusted) in TrustedTargets(here.bundles, r.id, r.targets);
    assert (ps + [r])[..|ps|] == ps;
    forall t | t in r.targets ensures t.before == Sha256(Read(Final(w.files, ps), t.path)) {
      assert t.path in w.managed;
      assert AgreeAt(t.path, d.live, Final(w.files, ps));
    }
  }

  lemma StagedIsChained(w: World, d: Disk, here: Disk, req: Request)
    requires Invariant(w, d) && !Pending(d.ledger) && Admissible(w, req) && Committable(req)
    requires here.live == d.live && here.ledger == d.ledger
    requires SnapshotsValid(here.bundles, RequestId(d.live, req), PreparedRecord(d.live, req).targets)
    ensures var ps := PreparedOf(d.ledger);
            Chained(w, here.bundles, ps + [PreparedRecord(d.live, req)], |ps|)
  {
    StagedContinues(w, d, here, req);
    RecordAcceptedIff(d.live, req, here.bundles);
  }

  lemma AppendPrepared(d: Disk, r: Record)
    requires r.Prepared?
    ensures PreparedOf(d.ledger + [r]) == PreparedOf(d.ledger) + [r] && Pending(d.ledger + [r])
  {
    assert (d.ledger + [r])[..|d.ledger|] == d.ledger;
  }

  /** Staging and preparing keep the invariant at every point and leave the new transaction pending. */
  lemma PreparingKeeps(w: World, d: Disk, req: Request)
    requires Invariant(w, d) && !Pending(d.ledger) && Admissible(w, req) && Committable(req)
    ensures var ws := PrepareWrites(d.live, req);
            var r := PreparedRecord(d.live, req);
            var d' := ApplyAll(d, ws);
            && Throughout(Keeps(w), d, ws) && Invariant(w, d')
            && d'.live == d.live && d'.ledger == d.ledger + [r]
  {
    var ws, r := StageWrites(d.live, req), PreparedRecord(d.live, req);
    var here := ApplyAll(d, ws);
    StagingKeeps(w, d, req);
    ThroughoutEnd(Keeps(w), d, ws);
    StagedSnapshotsValid(d, req);
    StagedIsChained(w, d, here, req);
    assert Legal(w, here, AppendRecord(r));
    LegalKeepsInvariant(w, here, AppendRecord(r));
    ThroughoutNext(Keeps(w), d, ws, AppendRecord(r));
    ApplyAllConcat(d, ws, [AppendRecord(r)]);
    ApplyOne(here, AppendRecord(r));
  }

  // ---------- a whole commit ----------

  lemma RecordPreconditionsHold(live: map<Uri, Content>, req: Request)
    requires Committable(req)
    ensures PreconditionsHold(live, PreparedRecord(live, req).preconditions)
            <==> RequestPreconditionsHold(live, req.preconditions)
  {
    PreconditionFacts(req.preconditions, SortSet(req.preconditions.Keys));
    if PreconditionsHold(live, PreparedRecord(live, req).preconditions) {
      forall uri | uri in req.preconditions ensures Holds(live, uri, req.preconditions[uri]) {
        assert Precondition(uri, req.preconditions[uri]) in PreparedRecord(live, req).preconditions;
      }
    }
  }

  /** The after-digest the record lists for a file the request names in a precondition. */
  lemma StampedDigest(live: map<Uri, Content>, req: Request, uri: Uri)
    requires Committable(req) && uri in req.targets && uri in req.preconditions && Holds(live, uri, req.preconditions[uri])
    ensures var r := PreparedRecord(live, req);
            && uri in Paths(r.targets)
            && (Lookup(r.targets, uri).after == req.preconditions[uri]
                <==> uri != req.trusted && Sha256(req.targets[uri]) == req.preconditions[uri])
  {
    RecordFacts(live, req);
    NotStampedYet(RequestId(live, req), uri, StampedTargets(live, req)[req.trusted].doc);
  }

  /** A file hashed into an id as it was before does not carry that id. */
  lemma NotStampedYet(id: Id, uri: Uri, doc: Doc)
    ensures !(uri in id.seed.before && id.seed.before[uri] == Sha256(Document(doc)) && doc.lastTransitionId == Some(id))
  {
  }

  /** A record listing the files and preconditions of the request. */
  ghost predicate Lists(r: Record, req: Request)
    requires r.Prepared?
  {
    && Paths(r.targets) == req.targets.Keys
    && forall p :: p in r.preconditions <==> p.path in req.preconditions && p.sha256 == req.preconditions[p.path]
  }

  lemma ListedKeptIff(r: Record, req: Request)
    requires r.Prepared? && Lists(r, req)
    requires forall uri :: uri in req.preconditions && uri in req.targets ==>
               (Lookup(r.targets, uri).after == req.preconditions[uri]
                <==> uri != req.trusted && Sha256(req.targets[uri]) == req.preconditions[uri])
    ensures PreconditionsKept(r) <==> KeepsPreconditions(req)
  {
    if PreconditionsKept(r) {
      forall uri | uri in req.preconditions && uri in req.targets
        ensures Lookup(r.targets, uri).after == req.preconditions[uri]
      {
        assert Precondition(uri, req.preconditions[uri]) in r.preconditions;
      }
    }
  }

  /** The record of a request whose preconditions hold keeps them exactly when the request does. */
  lemma RecordKeptIff(live: map<Uri, Content>, req: Request)
    requires Committable(req) && RequestPreconditionsHold(live, req.preconditions)
    ensures PreconditionsKept(PreparedRecord(live, req)) <==> KeepsPreconditions(req)
  {
    var r := PreparedRecord(live, req);
    RecordLists(live, req);
    forall uri | uri in req.preconditions && uri in req.targets
      ensures Lookup(r.targets, uri).after == req.preconditions[uri]
              <==> uri != req.trusted && Sha256(req.targets[uri]) == req.preconditions[uri]
    {
      StampedDigest(live, req, uri);
    }
    ListedKeptIff(r, req);
  }

  lemma RecordLists(live: map<Uri, Content>, req: Request)
    requires Committable(req)
    ensures Lists(PreparedRecord(live, req), req)
  {
    RecordFacts(live, req);
    PreconditionFacts(req.preconditions, SortSet(req.preconditions.Keys));
  }

  /** With every target in place the live files are the old ones overwritten by the stamped targets. */
  lemma InPlaceOverwrites(d: Disk, d': Disk, live: map<Uri, Content>, req: Request)
    requires Committable(req) && d.live == live && InPlace(d, d', PreparedRecord(live, req).targets)
    ensures d'.live == live + StampedTargets(live, req)
  {
    var r, targets := PreparedRecord(live, req), StampedTargets(live, req);
    RecordFacts(live, req);
    forall uri ensures AgreeAt(uri, d'.live, live + targets) {
      if uri in Paths(r.targets) {
        var t := Lookup(r.targets, uri);
        assert Holds(d'.live, uri, t.after);
      } else {
        assert AgreeAt(uri, d'.live, d.live);
      }
    }
    SameFiles(d'.live, live + targets);
  }

  /** Rolling the prepared request forward. */
  lemma FinishPrepared(w: World, d: Disk, live: map<Uri, Content>, req: Request)
    requires Invariant(w, d) && Pending(d.ledger) && Committable(req) && d.live == live
    requires Trailing(d) == PreparedRecord(live, req) && RequestPreconditionsHold(live, req.preconditions)
    ensures var plan := RecoverPlan(d);
            var d' := ApplyAll(d, plan.writes);
            && plan.outcome == Returned([RequestId(live, req)])
            && d'.live == live + StampedTargets(live, req)
            && d'.ledger == d.ledger + [CommitOf(Trailing(d))]
  {
    var r := Trailing(d);
    RecordPreconditionsHold(live, req);
    RecoverReachable(w, d);
    TrailingIsOnlyPending(w, d);
    OnePlan(d, r);
    TrailingTargetsKnown(w, d);
    CommittingKeeps(w, d, r);
    InPlaceOverwrites(d, ApplyAll(d, ReplaceWrites(d, r.id, r.targets)), live, req);
  }

  /** A ready commit on a settled disk writes its snapshots, one PREPARED, its targets and one COMMITTED. */
  lemma StageReachable(w: World, d: Disk, req: Request)
    requires Invariant(w, d) && !Pending(d.ledger) && Admissible(w, req) && Ready(d, req)
    ensures var plan := StagePlan(d, req);
            var d' := ApplyAll(d, plan.writes);
            var r := PreparedRecord(d.live, req);
            && PreparePlan(d, req) == plan
            && plan.outcome == Returned([RequestId(d.live, req)])
            && Throughout(Keeps(w), d, plan.writes)
            && d'.live == d.live + StampedTargets(d.live, req)
            && d'.ledger == d.ledger + [r, CommitOf(r)]
            && plan.writes == PrepareWrites(d.live, req)
                              + RecoverPlan(ApplyAll(d, PrepareWrites(d.live, req))).writes
  {
    NewIdIsNew(w, d, req);
    PreparingKeeps(w, d, req);
    var ws, r := PrepareWrites(d.live, req), PreparedRecord(d.live, req);
    var here := ApplyAll(d, ws);
    AppendPrepared(d, r);
    FinishPrepared(w, here, d.live, req);
    RecoverReachable(w, here);
    var rest := RecoverPlan(here);
    ThroughoutConcat(Keeps(w), d, ws, rest.writes);
    ApplyAllConcat(d, ws, rest.writes);
    assert d.ledger + [r] + [CommitOf(r)] == d.ledger + [r, CommitOf(r)];
  }
}
