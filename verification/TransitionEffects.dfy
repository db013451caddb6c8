/** What commit and recovery leave in the files, what verification notices, and which ledgers are valid. */
module TransitionEffects {
  import opened Prelude
  import opened TransitionModel
  import opened TransitionRecords
  import opened TransitionRuns
  import opened TransitionCrash
  import opened TransitionTheorems
  import opened TransitionCommit
  import opened TransitionWedged
  import opened TransitionPromises

  // ---------- what a commit leaves ----------

  /** The files after a commit under `id` of files that were `before`, apart from those another transaction wrote: the
      trusted state is the request's but for the two stamped fields, the other targets are the request's, and nothing
      else changed. */
  ghost predicate Leaves(before: map<Uri, Content>, after: map<Uri, Content>, req: Request, id: Id, others: set<Uri>) {
    && req.trusted in req.targets && req.targets[req.trusted].Document?
    && req.trusted in after && after[req.trusted].Document?
    && var doc, asked := after[req.trusted].doc, req.targets[req.trusted].doc;
    && doc.rest == asked.rest && doc.claimGraph == asked.claimGraph
    && doc.claimGraphSha256 == Some(req.claimGraphSha256) && doc.lastTransitionId == Some(id)
    && (forall uri :: uri in req.targets && uri != req.trusted ==> uri in after && after[uri] == req.targets[uri])
    && (forall uri :: uri !in req.targets && uri !in others ==> AgreeAt(uri, after, before))
  }

  /** The files the pending transaction writes. */
  function PendingPaths(d: Disk): set<Uri> {
    if Pending(d.ledger) then Paths(Trailing(d).targets) else {}
  }

  /** Recovery changes no file but those of the pending transaction. */
  lemma RecoveryTouches(w: World, d: Disk)
    requires Invariant(w, d)
    ensures forall uri :: uri !in PendingPaths(d) ==> AgreeAt(uri, ApplyAll(d, RecoverPlan(d).writes).live, d.live)
  {
    RecoverReachable(w, d);
    if !Pending(d.ledger) {
      SettledRecovers(w, d);
    } else if RecoverPlan(d).outcome.Returned? {
      var r := Trailing(d);
      TrailingIsOnlyPending(w, d);
      TrailingTargetsKnown(w, d);
      OnePlan(d, r);
      PendingAccepted(d, r);
      ReplacedInPlace(d, r.id, r.targets);
      CommitAppended(d, ReplaceWrites(d, r.id, r.targets), CommitOf(r));
    }
  }

  lemma CommitAppended(d: Disk, ws: seq<Write>, r: Record)
    ensures var here := ApplyAll(d, ws);
            var after := ApplyAll(d, ws + [AppendRecord(r)]);
            after.live == here.live && after.bundles == here.bundles && after.ledger == here.ledger + [r]
  {
    ApplyAllConcat(d, ws, [AppendRecord(r)]);
    ApplyOne(ApplyAll(d, ws), AppendRecord(r));
  }

  lemma StampedLeaves(live: map<Uri, Content>, req: Request)
    requires Committable(req)
    ensures Leaves(live, live + StampedTargets(live, req), req, RequestId(live, req), {})
  {
  }

  lemma LeavesSince(before: map<Uri, Content>, middle: map<Uri, Content>, after: map<Uri, Content>, req: Request, id: Id,
                    others: set<Uri>)
    requires Leaves(middle, after, req, id, {}) && forall uri :: uri !in others ==> AgreeAt(uri, middle, before)
    ensures Leaves(before, after, req, id, others)
  {
    forall uri | uri !in req.targets && uri !in others ensures AgreeAt(uri, after, before) {
      assert AgreeAt(uri, after, middle) && AgreeAt(uri, middle, before);
    }
  }

  /** A commit that returns, returns one id; the trusted state then holds the request's document with the request's graph
      digest and that id, every other target the request's content, and every file that is neither a target nor one of
      the transaction finished first is unchanged. */
  lemma CommitLeaves(w: World, d: Disk, req: Request)
    requires Consistent(w, d) && Confined(w, req) && CommitPlan(d, req).outcome.Returned?
    ensures var plan := CommitPlan(d, req);
            && |plan.outcome.ids| == 1
            && Leaves(d.live, ApplyAll(d, plan.writes).live, req, plan.outcome.ids[0], PendingPaths(d))
  {
    CommitReturnsIff(w, d, req);
    RecoveryConsistent(w, d);
    RecoverReachable(w, d);
    RecoveryTouches(w, d);
    var first := RecoverPlan(d).writes;
    var base := ApplyAll(d, first);
    CommitIs(d, req);
    StageReachable(w, base, req);
    ApplyAllConcat(d, first, PreparePlan(base, req).writes);
    StampedLeaves(base.live, req);
    LeavesSince(d.live, base.live, base.live + StampedTargets(base.live, req), req, RequestId(base.live, req),
                PendingPaths(d));
  }

  /** The id of the last record. */
  function LastId(d: Disk): Option<Id> {
    if d.ledger == [] then None else Some(d.ledger[|d.ledger| - 1].id)
  }

  /** A disk on which `r` was prepared and its files are partly or wholly in place. */
  ghost predicate Underway(w: World, base: Disk, crashed: Disk, r: Record) {
    && Invariant(w, crashed) && PreparedOf(crashed.ledger) == PreparedOf(base.ledger) + [r]
    && forall uri :: uri !in Paths(r.targets) ==> AgreeAt(uri, crashed.live, base.live)
  }

  /** Recovery from wherever the commit died puts the rest of its files in place. */
  lemma UnderwayFinishes(w: World, base: Disk, crashed: Disk, r: Record)
    requires Invariant(w, base) && !Pending(base.ledger) && r.Prepared? && Underway(w, base, crashed, r)
    requires RecoverPlan(crashed).outcome.Returned?
    ensures var after := ApplyAll(crashed, RecoverPlan(crashed).writes);
            && (forall t :: t in r.targets ==> Holds(after.live, t.path, t.after))
            && (forall uri :: uri !in Paths(r.targets) ==> AgreeAt(uri, after.live, base.live))
            && LastId(after) == Some(r.id)
  {
    RecoverReachable(w, crashed);
    RecoveryTouches(w, crashed);
    var after := ApplyAll(crashed, RecoverPlan(crashed).writes);
    LastTargetsHold(w, after);
    SettledLastId(after);
    if Pending(crashed.ledger) {
      TrailingIsLast(crashed);
    }
    forall uri | uri !in Paths(r.targets) ensures AgreeAt(uri, after.live, base.live) {
      assert AgreeAt(uri, after.live, crashed.live) && AgreeAt(uri, crashed.live, base.live);
    }
  }

  lemma SettledLastId(d: Disk)
    requires WellPaired(d.ledger) && !Pending(d.ledger) && PreparedOf(d.ledger) != []
    ensures var ps := PreparedOf(d.ledger); LastId(d) == Some(ps[|ps| - 1].id)
  {
  }

  lemma PreparedLeaves(base: map<Uri, Content>, after: map<Uri, Content>, req: Request)
    requires Committable(req)
    requires var r := PreparedRecord(base, req);
             && (forall t :: t in r.targets ==> Holds(after, t.path, t.after))
             && (forall uri :: uri !in Paths(r.targets) ==> AgreeAt(uri, after, base))
    ensures Leaves(base, after, req, RequestId(base, req), {})
  {
    var r, targets := PreparedRecord(base, req), StampedTargets(base, req);
    RecordFacts(base, req);
    forall uri | uri in req.targets ensures uri in after && after[uri] == targets[uri] {
      var t := Lookup(r.targets, uri);
      assert Holds(after, uri, t.after);
    }
  }

  /** After PREPARED the commit keeps its transaction underway at every write. */
  lemma StaysUnderway(w: World, base: Disk, req: Request, here: Disk, j: nat, crashed: Disk)
    requires Invariant(w, base) && !Pending(base.ledger) && Admissible(w, req) && Ready(base, req)
    requires here == ApplyAll(base, PrepareWrites(base.live, req))
    requires j <= |RecoverPlan(here).writes| && crashed == ApplyAll(here, RecoverPlan(here).writes[..j])
    ensures Underway(w, base, crashed, PreparedRecord(base.live, req))
  {
    var r := PreparedRecord(base.live, req);
    PreparingKeeps(w, base, req);
    AppendPrepared(base, r);
    RecoverReachable(w, here);
    assert Keeps(w)(ApplyAll(here, RecoverPlan(here).writes[..j]));
    FinishPrepared(w, here, base.live, req);
    PartWritten(w, here, r, j);
  }

  lemma PartWritten(w: World, here: Disk, r: Record, j: nat)
    requires Invariant(w, here) && Pending(here.ledger) && r == Trailing(here) && RecoverPlan(here).outcome.Returned?
    requires j <= |RecoverPlan(here).writes|
    ensures var d := ApplyAll(here, RecoverPlan(here).writes[..j]);
            && PreparedOf(d.ledger) == PreparedOf(here.ledger)
            && forall uri :: uri !in Paths(r.targets) ==> AgreeAt(uri, d.live, here.live)
  {
    var ws := RecoverPlan(here).writes;
    if j < |ws| {
      PartReplaced(w, here, r, j);
    } else {
      assert ws[..j] == ws;
      RecoverReachable(w, here);
      RecoveryTouches(w, here);
    }
  }

  lemma PartReplaced(w: World, here: Disk, r: Record, j: nat)
    requires Invariant(w, here) && Pending(here.ledger) && r == Trailing(here) && RecoverPlan(here).outcome.Returned?
    requires j < |RecoverPlan(here).writes|
    ensures PartlyInPlace(here, ApplyAll(here, RecoverPlan(here).writes[..j]), r.targets)
  {
    TrailingAccepted(w, here);
    PlanSplits(w, here, r);
    var ws := ReplaceWrites(here, r.id, r.targets);
    PrefixPartlyInPlace(here, r.id, r.targets, j);
    assert (ws + [AppendRecord(CommitOf(r))])[..j] == ws[..j];
  }

  lemma PlanSplits(w: World, here: Disk, r: Record)
    requires Invariant(w, here) && Pending(here.ledger) && r == Trailing(here) && RecoverPlan(here).outcome.Returned?
    ensures RecoverPlan(here).writes == ReplaceWrites(here, r.id, r.targets) + [AppendRecord(CommitOf(r))]
  {
    TrailingIsOnlyPending(w, here);
    OnePlan(here, r);
  }

  /** The three batches of a ready commit. */
  lemma CommitBatches(w: World, d: Disk, req: Request, base: Disk)
    requires Invariant(w, d) && Admissible(w, req) && RecoverPlan(d).outcome.Returned?
    requires base == ApplyAll(d, RecoverPlan(d).writes) && Ready(base, req)
    requires Invariant(w, base) && !Pending(base.ledger)
    ensures var second := PrepareWrites(base.live, req);
            var third := RecoverPlan(ApplyAll(base, second)).writes;
            && CommitPlan(d, req).writes == RecoverPlan(d).writes + (second + third)
            && PreparedAt(d, req) == |RecoverPlan(d).writes| + |second|
  {
    CommitIs(d, req);
    StageReachable(w, base, req);
  }

  lemma FinishedLeaves(w: World, base: Disk, crashed: Disk, req: Request)
    requires Invariant(w, base) && !Pending(base.ledger) && Committable(req)
    requires Underway(w, base, crashed, PreparedRecord(base.live, req)) && RecoverPlan(crashed).outcome.Returned?
    ensures var after := ApplyAll(crashed, RecoverPlan(crashed).writes);
            LastId(after).Some? && Leaves(base.live, after.live, req, LastId(after).value, {})
  {
    UnderwayFinishes(w, base, crashed, PreparedRecord(base.live, req));
    PreparedLeaves(base.live, ApplyAll(crashed, RecoverPlan(crashed).writes).live, req);
  }

  /** Dying after `j` writes past PREPARED, and recovering. */
  lemma DiedPastPrepared(w: World, base: Disk, req: Request, here: Disk, j: nat, crashed: Disk)
    requires Invariant(w, base) && !Pending(base.ledger) && Admissible(w, req) && Ready(base, req)
    requires here == ApplyAll(base, PrepareWrites(base.live, req))
    requires j <= |RecoverPlan(here).writes| && crashed == ApplyAll(here, RecoverPlan(here).writes[..j])
    requires RecoverPlan(crashed).outcome.Returned?
    ensures LastId(Recovered(crashed)).Some?
            && Leaves(base.live, Recovered(crashed).live, req, LastId(Recovered(crashed)).value, {})
  {
    StaysUnderway(w, base, req, here, j, crashed);
    FinishedLeaves(w, base, crashed, req);
  }

  /** What recovery leaves. */
  function Recovered(d: Disk): Disk {
    ApplyAll(d, RecoverPlan(d).writes)
  }

  /** What a commit that died after `k` writes left. */
  function Crashed(d: Disk, req: Request, k: nat): Disk
    requires k <= |CommitPlan(d, req).writes|
  {
    ApplyAll(d, CommitPlan(d, req).writes[..k])
  }

  lemma CrashedIs(w: World, d: Disk, req: Request, base: Disk, here: Disk, k: nat) returns (j: nat, crashed: Disk)
    requires Invariant(w, d) && Admissible(w, req) && RecoverPlan(d).outcome.Returned?
    requires base == ApplyAll(d, RecoverPlan(d).writes) && Ready(base, req)
    requires Invariant(w, base) && !Pending(base.ledger) && here == ApplyAll(base, PrepareWrites(base.live, req))
    requires PreparedAt(d, req) <= k <= |CommitPlan(d, req).writes|
    ensures j <= |RecoverPlan(here).writes| && crashed == ApplyAll(here, RecoverPlan(here).writes[..j])
    ensures crashed == Crashed(d, req, k)
  {
    j, crashed := k - PreparedAt(d, req), Crashed(d, req, k);
    CommitBatches(w, d, req, base);
    PastPrepared(d, CommitPlan(d, req).writes, RecoverPlan(d).writes, PrepareWrites(base.live, req),
                 RecoverPlan(here).writes, k);
  }

  lemma CrashedLeavesBase(w: World, d: Disk, req: Request, base: Disk, k: nat)
    requires Invariant(w, d) && Admissible(w, req) && RecoverPlan(d).outcome.Returned?
    requires base == ApplyAll(d, RecoverPlan(d).writes) && Ready(base, req)
    requires Invariant(w, base) && !Pending(base.ledger)
    requires PreparedAt(d, req) <= k <= |CommitPlan(d, req).writes| && RecoverPlan(Crashed(d, req, k)).outcome.Returned?
    ensures var after := Recovered(Crashed(d, req, k));
            LastId(after).Some? && Leaves(base.live, after.live, req, LastId(after).value, {})
  {
    var here := ApplyAll(base, PrepareWrites(base.live, req));
    var j, crashed := CrashedIs(w, d, req, base, here, k);
    DiedPastPrepared(w, base, req, here, j, crashed);
  }

  lemma RecoveredBase(w: World, d: Disk)
    requires Invariant(w, d) && RecoverPlan(d).outcome.Returned?
    ensures Invariant(w, Recovered(d)) && !Pending(Recovered(d).ledger)
    ensures forall uri :: uri !in PendingPaths(d) ==> AgreeAt(uri, Recovered(d).live, d.live)
  {
    RecoverReachable(w, d);
    RecoveryTouches(w, d);
  }

  /** Wherever a ready commit dies past its PREPARED append, if recovery then returns the files are as the commit leaves
      them, under the id of the last record. */
  lemma CrashedCommitLeaves(w: World, d: Disk, req: Request, k: nat)
    requires Invariant(w, d) && Admissible(w, req) && RecoverPlan(d).outcome.Returned? && Ready(Recovered(d), req)
    requires PreparedAt(d, req) <= k <= |CommitPlan(d, req).writes|
    requires RecoverPlan(Crashed(d, req, k)).outcome.Returned?
    ensures var after := Recovered(Crashed(d, req, k));
            LastId(after).Some? && Leaves(d.live, after.live, req, LastId(after).value, PendingPaths(d))
  {
    RecoveredBase(w, d);
    CrashedLeavesBase(w, d, req, Recovered(d), k);
    var after := Recovered(Crashed(d, req, k));
    LeavesSince(d.live, Recovered(d).live, after.live, req, LastId(after).value, PendingPaths(d));
  }

  lemma PastPrepared(d: Disk, ws: seq<Write>, a: seq<Write>, b: seq<Write>, c: seq<Write>, k: nat)
    requires ws == a + (b + c) && |a| + |b| <= k <= |ws|
    ensures ApplyAll(d, ws[..k]) == ApplyAll(ApplyAll(ApplyAll(d, a), b), c[..k - |a| - |b|])
  {
    var j := k - |a| - |b|;
    assert ws[..k] == a + (b + c[..j]);
    ApplyAllConcat(d, a, b + c[..j]);
    ApplyAllConcat(ApplyAll(d, a), b, c[..j]);
  }
}
