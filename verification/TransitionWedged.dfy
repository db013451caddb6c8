/** What a commit leaves whose claim-graph digest is not bound, and what runs keep that may contain such commits. */
module TransitionWedged {
  import opened Prelude
  import opened TransitionModel
  import opened TransitionRecords
  import opened TransitionRuns
  import opened TransitionCrash
  import opened TransitionTheorems
  import opened TransitionCommit

  /** The disk before the last record. */
  function Before(d: Disk): Disk
    requires d.ledger != []
  {
    d.(ledger := d.ledger[..|d.ledger| - 1])
  }

  /** A settled disk with one more PREPARED, which continues the earlier ones but is not acceptable. */
  ghost predicate Wedged(w: World, d: Disk) {
    && d.ledger != [] && Invariant(w, Before(d)) && !Pending(Before(d).ledger)
    && var ps, r := PreparedOf(Before(d).ledger), d.ledger[|d.ledger| - 1];
    && r.Prepared? && r.id !in Ids(ps)
    && !PreparedAccepted(d.bundles, r) && Continues(w, d.bundles, ps + [r], |ps|)
  }

  /** What every run keeps. */
  ghost predicate Consistent(w: World, d: Disk) {
    Invariant(w, d) || Wedged(w, d)
  }

  ghost function KeepsConsistent(w: World): Disk -> bool {
    d => Consistent(w, d)
  }

  /** A wedged ledger is rejected whatever the files hold, so that no call writes anything. */
  lemma WedgedRejects(w: World, d: Disk, live: map<Uri, Content>)
    requires Wedged(w, d)
    ensures ValidateLedger(d.bundles, d.ledger) == None && Pending(d.ledger)
    ensures RecoverPlan(d.(live := live)) == Plan([], Raised(InvalidLedger))
  {
    var before, r := Before(d), d.ledger[|d.ledger| - 1];
    SettledValidates(w, before);
    ValidateNext(d.bundles, before.ledger, r, LedgerOf(PreparedOf(before.ledger)));
    assert before.ledger + [r] == d.ledger;
  }

  /** The invariant holds where the ledger validates, that is where all its PREPARED records are acceptable. */
  lemma ValidatesIff(w: World, d: Disk)
    requires Consistent(w, d)
    ensures ValidateLedger(d.bundles, d.ledger).Some? <==> Invariant(w, d)
    ensures Invariant(w, d) <==> forall r :: r in PreparedOf(d.ledger) ==> PreparedAccepted(d.bundles, r)
  {
    if Invariant(w, d) {
      AllAccepted(w, d);
      if Pending(d.ledger) { TrailingIsOnlyPending(w, d); } else { SettledValidates(w, d); }
    } else {
      WedgedRejects(w, d, d.live);
      TrailingIsLast(d);
    }
  }

  // ---------- one commit ----------

  lemma ConsistentWherever(w: World, d: Disk, ws: seq<Write>)
    requires Throughout(Keeps(w), d, ws)
    ensures Throughout(KeepsConsistent(w), d, ws)
  {
    forall k | 0 <= k <= |ws| ensures KeepsConsistent(w)(ApplyAll(d, ws[..k])) {
      assert Keeps(w)(ApplyAll(d, ws[..k]));
    }
  }

  /** The PREPARED of an unbound request wedges the store. */
  lemma UnboundWedges(w: World, d: Disk, here: Disk, req: Request)
    requires Invariant(w, d) && !Pending(d.ledger) && Confined(w, req) && Committable(req) && !RequestBindsGraph(req)
    requires Invariant(w, here) && here.live == d.live && here.ledger == d.ledger
    requires SnapshotsValid(here.bundles, RequestId(d.live, req), PreparedRecord(d.live, req).targets)
    ensures Wedged(w, Apply(here, AppendRecord(PreparedRecord(d.live, req))))
  {
    var r := PreparedRecord(d.live, req);
    var after := Apply(here, AppendRecord(r));
    assert Before(after) == here && after.ledger[|after.ledger| - 1] == r;
    NewIdIsNew(w, d, req);
    StagedContinues(w, d, here, req);
    RecordAcceptedIff(d.live, req, here.bundles);
  }

  /** Staging and preparing, with a bound digest or not. */
  lemma PreparingConsistent(w: World, d: Disk, req: Request)
    requires Invariant(w, d) && !Pending(d.ledger) && Confined(w, req) && Committable(req)
    ensures Throughout(KeepsConsistent(w), d, PrepareWrites(d.live, req))
    ensures !RequestBindsGraph(req) ==> Wedged(w, ApplyAll(d, PrepareWrites(d.live, req)))
  {
    if RequestBindsGraph(req) {
      PreparingKeeps(w, d, req);
      ConsistentWherever(w, d, PrepareWrites(d.live, req));
    } else {
      var ws, r := StageWrites(d.live, req), PreparedRecord(d.live, req);
      StagingKeeps(w, d, req);
      ConsistentWherever(w, d, ws);
      ThroughoutEnd(Keeps(w), d, ws);
      StagedSnapshotsValid(d, req);
      UnboundWedges(w, d, ApplyAll(d, ws), req);
      ThroughoutNext(KeepsConsistent(w), d, ws, AppendRecord(r));
      ApplyAllConcat(d, ws, [AppendRecord(r)]);
      ApplyOne(ApplyAll(d, ws), AppendRecord(r));
    }
  }

  /** An unbound commit stops at its PREPARED. */
  lemma UnboundStops(w: World, d: Disk, req: Request)
    requires Invariant(w, d) && !Pending(d.ledger) && Confined(w, req) && Ready(d, req) && !RequestBindsGraph(req)
    ensures PreparePlan(d, req) == Plan(PrepareWrites(d.live, req), Raised(InvalidLedger))
  {
    NewIdIsNew(w, d, req);
    PreparingConsistent(w, d, req);
    var here := ApplyAll(d, PrepareWrites(d.live, req));
    WedgedRejects(w, here, here.live);
    assert here.(live := here.live) == here;
    assert PrepareWrites(d.live, req) + [] == PrepareWrites(d.live, req);
  }

  lemma PreparePlanConsistent(w: World, d: Disk, req: Request)
    requires Invariant(w, d) && !Pending(d.ledger) && Confined(w, req) && req.targets != map[]
    ensures Throughout(KeepsConsistent(w), d, PreparePlan(d, req).writes)
  {
    assert ApplyAll(d, [][..0]) == d;
    if Ready(d, req) {
      if RequestBindsGraph(req) {
        StageReachable(w, d, req);
        ConsistentWherever(w, d, PreparePlan(d, req).writes);
      } else {
        UnboundStops(w, d, req);
        PreparingConsistent(w, d, req);
      }
    } else {
      assert PreparePlan(d, req).writes == [];
    }
  }
}
