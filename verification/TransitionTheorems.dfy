/** The promises of the canonical transition store over every run with crashes at any storage operation. */
module TransitionTheorems {
  import opened Prelude
  import opened TransitionModel
  import opened TransitionRecords
  import opened TransitionRuns
  import opened TransitionCrash

  ghost function Keeps(w: World): Disk -> bool {
    d => Invariant(w, d)
  }

  // ---------- recovery of a reachable disk ----------

  lemma AllAccepted(w: World, d: Disk)
    requires Invariant(w, d)
    ensures var ps := PreparedOf(d.ledger);
            && (forall r :: r in ps ==> PreparedAccepted(d.bundles, r))
            && DistinctIds(ps)
  {
    var ps := PreparedOf(d.ledger);
    IdsDistinct(w, d.bundles, ps);
    forall r | r in ps ensures PreparedAccepted(d.bundles, r) {
      var k :| 0 <= k < |ps| && ps[k] == r;
      assert Chained(w, d.bundles, ps, k);
    }
  }

  lemma SettledValidates(w: World, d: Disk)
    requires Invariant(w, d) && !Pending(d.ledger)
    ensures ValidateLedger(d.bundles, d.ledger) == Some(LedgerOf(PreparedOf(d.ledger)))
  {
    AllAccepted(w, d);
    PairsValidate(d.bundles, PreparedOf(d.ledger));
  }

  /** The last transaction's targets end as its after-digests say. */
  lemma FinalAtTarget(w: World, bundles: Bundles, ps: seq<Record>, t: Target)
    requires ps != [] && (forall r :: r in ps ==> r.Prepared?) && Chained(w, bundles, ps, |ps| - 1)
    requires t in ps[|ps| - 1].targets
    ensures t.path in w.managed && t.path in Final(w.files, ps) && Final(w.files, ps)[t.path] == t.after.content
  {
    LookupIs(ps[|ps| - 1].targets, t);
  }

  lemma LastTargetsHold(w: World, d: Disk)
    requires Invariant(w, d) && !Pending(d.ledger) && PreparedOf(d.ledger) != []
    ensures var ps := PreparedOf(d.ledger);
            forall t :: t in ps[|ps| - 1].targets ==> Holds(d.live, t.path, t.after)
  {
    var ps := PreparedOf(d.ledger);
    assert Chained(w, d.bundles, ps, |ps| - 1);
    forall t | t in ps[|ps| - 1].targets ensures Holds(d.live, t.path, t.after) {
      FinalAtTarget(w, d.bundles, ps, t);
      assert AgreeAt(t.path, d.live, Final(w.files, ps));
    }
  }

  lemma SettledVerifies(w: World, d: Disk)
    requires Invariant(w, d) && !Pending(d.ledger)
    ensures VerifyCurrent(d) == None
  {
    var ps := PreparedOf(d.ledger);
    SettledValidates(w, d);
    LedgerOfFacts(ps);
    if ps != [] {
      LastTargetsHold(w, d);
    }
  }

  lemma SettledRecovers(w: World, d: Disk)
    requires Invariant(w, d) && !Pending(d.ledger)
    ensures RecoverPlan(d) == Plan([], Returned([]))
  {
    var l := LedgerOf(PreparedOf(d.ledger));
    SettledValidates(w, d);
    SettledVerifies(w, d);
    LedgerOfFacts(PreparedOf(d.ledger));
    UncommittedNone(l, l.ordered);
  }

  /** The transaction a crash left prepared but not committed. */
  function Trailing(d: Disk): (r: Record)
    requires Pending(d.ledger)
    ensures r.Prepared?
  {
    d.ledger[|d.ledger| - 1]
  }

  lemma TrailingIsLast(d: Disk)
    requires Pending(d.ledger)
    ensures var ps := PreparedOf(d.ledger);
            ps != [] && ps[|ps| - 1] == Trailing(d)
  {
  }

  lemma TrailingIsOnlyPending(w: World, d: Disk)
    requires Invariant(w, d) && Pending(d.ledger)
    ensures OnlyPending(d, Trailing(d))
  {
    var ps := PreparedOf(d.ledger);
    var n, r := |ps| - 1, Trailing(d);
    TrailingIsLast(d);
    AllAccepted(w, d);
    LastIdIsNew(ps);
    PairsValidate(d.bundles, ps[..n]);
    PreparedValidates(d.bundles, ps[..n], r);
    assert ps[n..] == [r];
    LedgerOfFacts(ps[..n]);
    ValidatedIsSound(d.bundles, d.ledger);
    var l := LedgerWith(ps[..n], r);
    UncommittedLast(l, LedgerOf(ps[..n]).ordered, r.id);
  }

  lemma TrailingTargetsKnown(w: World, d: Disk)
    requires Invariant(w, d) && Pending(d.ledger)
    ensures TargetsKnown(d.live, Trailing(d).targets)
  {
    var ps := PreparedOf(d.ledger);
    var n, r := |ps| - 1, Trailing(d);
    TrailingIsLast(d);
    assert Chained(w, d.bundles, ps, n);
    forall t | t in r.targets
      ensures Sha256(Read(d.live, t.path)) == t.before || Sha256(Read(d.live, t.path)) == t.after
    {
      LookupIs(r.targets, t);
      assert AgreeAt(t.path, d.live, Final(w.files, ps)) || AgreeAt(t.path, d.live, Final(w.files, ps[..n]));
    }
  }

  lemma ReplaceKeeps(w: World, d: Disk, t: Target)
    requires Invariant(w, d) && Pending(d.ledger) && t in Trailing(d).targets
    ensures Invariant(w, Apply(d, ReplaceLive(t.path, t.after.content)))
  {
    var ps := PreparedOf(d.ledger);
    TrailingIsLast(d);
    FinalAtTarget(w, d.bundles, ps, t);
    LegalKeepsInvariant(w, d, ReplaceLive(t.path, t.after.content));
  }

  /** What moving any target into place keeps, all of the replacements keep. */
  lemma {:induction false} ReplacingThroughout(p: Disk -> bool, d: Disk, id: Id, targets: seq<Target>)
    requires p(d) && SnapshotsValid(d.bundles, id, targets)
    requires forall here, t {:trigger p(Apply(here, ReplaceLive(t.path, t.after.content)))} ::
               p(here) && here.ledger == d.ledger && t in targets ==>
                 p(Apply(here, ReplaceLive(t.path, t.after.content)))
    ensures Throughout(p, d, ReplaceWrites(d, id, targets))
  {
    if targets == [] {
      assert ApplyAll(d, [][..0]) == d;
    } else {
      var n := |targets| - 1;
      var t := targets[n];
      SnapshotsValidUpTo(d.bundles, id, targets, n);
      ReplacingThroughout(p, d, id, targets[..n]);
      if !Holds(d.live, t.path, t.after) {
        var ws := ReplaceWrites(d, id, targets[..n]);
        ReplacedInPlace(d, id, targets[..n]);
        assert ws[..|ws|] == ws;
        assert p(ApplyAll(d, ws));
        assert p(Apply(ApplyAll(d, ws), ReplaceLive(t.path, t.after.content)));
        SnapshotDetermines(d.bundles, id, t.afterSnapshot, t.after);
        ThroughoutNext(p, d, ws, ReplaceLive(t.path, t.after.content));
      }
    }
  }

  lemma ReplacingKeeps(w: World, d: Disk, r: Record)
    requires Invariant(w, d) && Pending(d.ledger) && r == Trailing(d)
    requires SnapshotsValid(d.bundles, r.id, r.targets)
    ensures Throughout(Keeps(w), d, ReplaceWrites(d, r.id, r.targets))
  {
    forall here, t | Keeps(w)(here) && here.ledger == d.ledger && t in r.targets
      ensures Keeps(w)(Apply(here, ReplaceLive(t.path, t.after.content)))
    {
      ReplaceKeeps(w, here, t);
    }
    ReplacingThroughout(Keeps(w), d, r.id, r.targets);
  }

  lemma SnapshotsValidUpTo(bundles: Bundles, id: Id, targets: seq<Target>, n: nat)
    requires n <= |targets| && SnapshotsValid(bundles, id, targets)
    ensures SnapshotsValid(bundles, id, targets[..n])
  {
  }

  lemma ReplacedAt(w: World, d: Disk, here: Disk, uri: Uri)
    requires Invariant(w, d) && Pending(d.ledger) && InPlace(d, here, Trailing(d).targets) && uri in w.managed
    ensures AgreeAt(uri, here.live, Final(w.files, PreparedOf(d.ledger)))
  {
    var ps, r := PreparedOf(d.ledger), Trailing(d);
    TrailingIsLast(d);
    if uri in Paths(r.targets) {
      FinalAtTarget(w, d.bundles, ps, Lookup(r.targets, uri));
    } else {
      OutsideUnchanged(w.files, ps, uri);
      assert AgreeAt(uri, here.live, d.live);
    }
  }

  /** The last transaction changes only its targets. */
  lemma OutsideUnchanged(files: map<Uri, Content>, ps: seq<Record>, uri: Uri)
    requires ps != [] && (forall r :: r in ps ==> r.Prepared?) && uri !in Paths(ps[|ps| - 1].targets)
    ensures AgreeAt(uri, Final(files, ps), Final(files, ps[..|ps| - 1]))
  {
  }

  /** With every target in place the files are as the transactions say. */
  lemma ReplacedMatches(w: World, d: Disk, here: Disk)
    requires Invariant(w, d) && Pending(d.ledger) && InPlace(d, here, Trailing(d).targets)
    ensures LiveMatches(w, here.live, PreparedOf(d.ledger), false)
  {
    forall uri | uri in w.managed ensures AgreeAt(uri, here.live, Final(w.files, PreparedOf(d.ledger))) {
      ReplacedAt(w, d, here, uri);
    }
  }

  function CommitOf(r: Record): Record
    requires r.Prepared?
  {
    Committed(r.id, true, r.authorization)
  }

  lemma TrailingAccepted(w: World, d: Disk)
    requires Invariant(w, d) && Pending(d.ledger)
    ensures SnapshotsValid(d.bundles, Trailing(d).id, Trailing(d).targets)
  {
    AllAccepted(w, d);
    TrailingIsLast(d);
    assert Trailing(d) in PreparedOf(d.ledger);
  }

  lemma CommitLegal(w: World, d: Disk, here: Disk)
    requires Invariant(w, d) && Pending(d.ledger) && InPlace(d, here, Trailing(d).targets)
    ensures Legal(w, here, AppendRecord(CommitOf(Trailing(d))))
  {
    TrailingIsLast(d);
    ReplacedMatches(w, d, here);
  }

  lemma AppendCommitted(d: Disk, r: Record)
    requires r.Committed?
    ensures PreparedOf(d.ledger + [r]) == PreparedOf(d.ledger) && !Pending(d.ledger + [r])
  {
    assert (d.ledger + [r])[..|d.ledger|] == d.ledger;
  }

  lemma CommittingKeeps(w: World, d: Disk, r: Record)
    requires Invariant(w, d) && Pending(d.ledger) && r == Trailing(d)
    ensures var ws := ReplaceWrites(d, r.id, r.targets);
            && Throughout(Keeps(w), d, ws + [AppendRecord(CommitOf(r))])
            && var d' := ApplyAll(d, ws + [AppendRecord(CommitOf(r))]);
            && Invariant(w, d') && !Pending(d'.ledger)
            && PreparedOf(d'.ledger) == PreparedOf(d.ledger)
            && d' == Apply(ApplyAll(d, ws), AppendRecord(CommitOf(r)))
            && InPlace(d, ApplyAll(d, ws), r.targets)
  {
    var ws := ReplaceWrites(d, r.id, r.targets);
    var commit := AppendRecord(CommitOf(r));
    var here := ApplyAll(d, ws);
    TrailingAccepted(w, d);
    ReplacedInPlace(d, r.id, r.targets);
    CommitLegal(w, d, here);
    ReplacingKeeps(w, d, r);
    ThroughoutEnd(Keeps(w), d, ws);
    LegalKeepsInvariant(w, here, commit);
    ThroughoutNext(Keeps(w), d, ws, commit);
    ApplyAllConcat(d, ws, [commit]);
    ApplyOne(here, commit);
    AppendCommitted(here, CommitOf(r));
  }

  /** Recovery of a reachable disk returns exactly when the pending transaction's preconditions hold, keeps the
      invariant at every point, and leaves nothing pending. */
  lemma RecoverReachable(w: World, d: Disk)
    requires Invariant(w, d)
    ensures var plan := RecoverPlan(d);
            && Throughout(Keeps(w), d, plan.writes)
            && (plan.outcome.Returned? <==>
                  (Pending(d.ledger) ==> PreconditionsHold(d.live, Trailing(d).preconditions)))
            && (!plan.outcome.Returned? ==> plan == Plan([], Raised(PreconditionChanged)))
            && (plan.outcome.Returned? ==>
                  var d' := ApplyAll(d, plan.writes);
                  && Invariant(w, d') && !Pending(d'.ledger) && d'.bundles == d.bundles
                  && PreparedOf(d'.ledger) == PreparedOf(d.ledger))
  {
    assert ApplyAll(d, [][..0]) == d;
    if !Pending(d.ledger) {
      SettledRecovers(w, d);
    } else {
      var r := Trailing(d);
      TrailingIsOnlyPending(w, d);
      TrailingTargetsKnown(w, d);
      OnePlan(d, r);
      if PreconditionsHold(d.live, r.preconditions) {
        CommittingKeeps(w, d, r);
        SettledVerifies(w, ApplyAll(d, ReplaceWrites(d, r.id, r.targets) + [AppendRecord(CommitOf(r))]));
      }
    }
  }
}
