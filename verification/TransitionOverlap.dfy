/** When a commit is all or nothing wherever it dies, and what strands it. */
module TransitionOverlap {
  import opened Prelude
  import opened TransitionModel
  import opened TransitionRecords
  import opened TransitionRuns
  import opened TransitionCrash
  import opened TransitionTheorems
  import opened TransitionCommit
  import opened TransitionPromises

  // ---------- one commit ----------

  /** Wherever the commit dies, recovery leaves it applied in full or not at all. */
  ghost predicate CrashSafe(d: Disk, req: Request)
    requires Committable(req)
  {
    forall k :: 0 <= k <= |CommitPlan(d, req).writes| ==> AllOrNothing(d, req, k)
  }

  /** Dying after `k` writes, the commit leaves a disk that recovery rejects. */
  ghost predicate StrandsAt(d: Disk, req: Request, k: nat) {
    && k <= |CommitPlan(d, req).writes|
    && RecoverPlan(ApplyAll(d, CommitPlan(d, req).writes[..k])) == Plan([], Raised(PreconditionChanged))
  }

  lemma StrandedIsUnsafe(d: Disk, req: Request, k: nat)
    requires Committable(req) && StrandsAt(d, req, k)
    ensures !CrashSafe(d, req)
  {
    assert !AllOrNothing(d, req, k);
  }

  /** The writes of a commit whose own recovery returns start with those of that recovery. */
  lemma StartsWithRecovery(d: Disk, req: Request, ws: seq<Write>)
    requires req.targets != map[] && RecoverPlan(d).outcome.Returned? && ws <= RecoverPlan(d).writes
    ensures ws <= CommitPlan(d, req).writes && CommitPlan(d, req).writes[..|ws|] == ws
  {
    CommitIs(d, req);
  }

  /** A pending transaction that changes a file its preconditions name can be stranded by the recovery of the commit. */
  lemma PendingStrands(w: World, d: Disk, req: Request)
    requires Invariant(w, d) && !PendingKept(d) && req.targets != map[] && RecoverPlan(d).outcome.Returned?
    ensures exists k :: StrandsAt(d, req, k)
  {
    var r := Trailing(d);
    TrailingIsOnlyPending(w, d);
    OverlapStrands(d, r);
    var ws := ReplaceWrites(d, r.id, r.targets);
    StartsWithRecovery(d, req, ws);
    assert StrandsAt(d, req, |ws|);
  }

  /** After PREPARED and its replacements, a commit that does not keep its preconditions is stranded. */
  lemma ReplacedStrands(w: World, base: Disk, req: Request)
    requires Invariant(w, base) && !Pending(base.ledger) && Admissible(w, req) && Ready(base, req)
    requires !KeepsPreconditions(req)
    ensures var here := ApplyAll(base, PrepareWrites(base.live, req));
            var r := PreparedRecord(base.live, req);
            var ws := ReplaceWrites(here, r.id, r.targets);
            ws <= RecoverPlan(here).writes && RecoverPlan(ApplyAll(here, ws)) == Plan([], Raised(PreconditionChanged))
  {
    var here, r := ApplyAll(base, PrepareWrites(base.live, req)), PreparedRecord(base.live, req);
    PreparingKeeps(w, base, req);
    AppendPrepared(base, r);
    TrailingIsOnlyPending(w, here);
    FinishPrepared(w, here, base.live, req);
    RecordKeptIff(base.live, req);
    OverlapStrands(here, r);
  }

  lemma DiesWithin(d: Disk, a: seq<Write>, b: seq<Write>, c: seq<Write>, ws: seq<Write>)
    requires ws <= c
    ensures var k := |a| + |b| + |ws|;
            && k <= |a + (b + c)|
            && ApplyAll(d, (a + (b + c))[..k]) == ApplyAll(ApplyAll(ApplyAll(d, a), b), ws)
  {
    assert (a + (b + c))[..|a| + |b| + |ws|] == a + (b + ws);
    ApplyAllConcat(d, a, b + ws);
    ApplyAllConcat(ApplyAll(d, a), b, ws);
  }

  /** So a commit that changes a file its preconditions name can strand itself. */
  lemma CommitStrands(w: World, d: Disk, req: Request)
    requires Invariant(w, d) && Admissible(w, req) && RecoverPlan(d).outcome.Returned?
    requires Ready(ApplyAll(d, RecoverPlan(d).writes), req) && !KeepsPreconditions(req)
    ensures exists k :: StrandsAt(d, req, k)
  {
    var first := RecoverPlan(d).writes;
    var base := ApplyAll(d, first);
    RecoverReachable(w, d);
    CommitIs(d, req);
    StageReachable(w, base, req);
    ReplacedStrands(w, base, req);
    var second, r := PrepareWrites(base.live, req), PreparedRecord(base.live, req);
    var here := ApplyAll(base, second);
    var ws := ReplaceWrites(here, r.id, r.targets);
    DiesWithin(d, first, second, RecoverPlan(here).writes, ws);
    assert StrandsAt(d, req, |first| + |second| + |ws|);
  }

  lemma UnboundLeaves(w: World, d: Disk, req: Request)
    requires Invariant(w, d) && Confined(w, req) && RecoverPlan(d).outcome.Returned?
    requires Ready(ApplyAll(d, RecoverPlan(d).writes), req) && !RequestBindsGraph(req)
    ensures !RecoverPlan(ApplyAll(d, CommitPlan(d, req).writes)).outcome.Returned?
  {
    var after := ApplyAll(d, CommitPlan(d, req).writes);
    UnboundGraphWedges(w, d, req, after.live);
    assert after.(live := after.live) == after;
  }

  lemma UnboundIsUnsafe(w: World, d: Disk, req: Request)
    requires Invariant(w, d) && Confined(w, req) && RecoverPlan(d).outcome.Returned?
    requires Ready(ApplyAll(d, RecoverPlan(d).writes), req) && !RequestBindsGraph(req)
    ensures !CrashSafe(d, req)
  {
    var ws := CommitPlan(d, req).writes;
    UnboundLeaves(w, d, req);
    assert ws[..|ws|] == ws;
    assert !AllOrNothing(d, req, |ws|);
  }

  /**
   * A ready commit is all or nothing at every crash point exactly when it binds its
   * claim graph, and neither it nor the transaction it finishes first changes a file
   * named in its own preconditions.
   */
  lemma CrashSafeIff(w: World, d: Disk, req: Request)
    requires Invariant(w, d) && Confined(w, req) && RecoverPlan(d).outcome.Returned?
    requires Ready(ApplyAll(d, RecoverPlan(d).writes), req)
    ensures CrashSafe(d, req) <==> RequestBindsGraph(req) && PendingKept(d) && KeepsPreconditions(req)
  {
    if !RequestBindsGraph(req) {
      UnboundIsUnsafe(w, d, req);
    } else if !PendingKept(d) || !KeepsPreconditions(req) {
      if !PendingKept(d) { PendingStrands(w, d, req); } else { CommitStrands(w, d, req); }
      var k :| StrandsAt(d, req, k);
      StrandedIsUnsafe(d, req, k);
    } else {
      forall k | 0 <= k <= |CommitPlan(d, req).writes| ensures AllOrNothing(d, req, k) {
        CommitAllOrNothing(w, d, req, k);
      }
    }
  }

  /**
   * A first commit that replaces the claim graph and asks, as a precondition, that the graph still be the old one:
   * dying just before COMMITTED it leaves a store that no recovery finishes while the files stay as they are.
   */
  lemma OverlapExample()
    ensures var before := map["trusted" := Document(Doc(None, None, None, "{}")), "graph" := Text("old")];
            var req := Request(before["graph" := Text("new")], "audit", "trusted", Sha256(Text("new")),
                               map["graph" := Sha256(Text("old"))]);
            var d := Disk(before, map[], []);
            && CommitPlan(d, req).outcome.Returned?
            && exists k :: StrandsAt(d, req, k)
  {
    var before := map["trusted" := Document(Doc(None, None, None, "{}")), "graph" := Text("old")];
    var req := Request(before["graph" := Text("new")], "audit", "trusted", Sha256(Text("new")),
                       map["graph" := Sha256(Text("old"))]);
    var w := World(before, {"trusted", "graph"}, "trusted");
    var d := Initial(w);
    RunKeepsInvariant(w, []);
    SettledRecovers(w, d);
    assert ApplyAll(d, []) == d;
    OneGraph(req);
    CommitReturnsIff(w, d, req);
    CommitStrands(w, d, req);
  }

  lemma OneGraph(req: Request)
    requires req.targets.Keys == {"trusted", "graph"} && req.trusted == "trusted"
    requires req.targets["trusted"].Document? && req.targets["trusted"].doc.claimGraph.None?
    requires Sha256(req.targets["graph"]) == req.claimGraphSha256
    ensures RequestBindsGraph(req)
  {
    assert (set uri | uri in req.targets && uri != req.trusted && Sha256(req.targets[uri]) == req.claimGraphSha256)
        == {"graph"};
  }

  // ---------- every run ----------

  /** Every PREPARED record among the writes keeps its preconditions. */
  predicate PreparesKept(ws: seq<Write>) {
    forall i :: 0 <= i < |ws| && ws[i].AppendRecord? && ws[i].record.Prepared? ==> PreconditionsKept(ws[i].record)
  }

  predicate LedgerKept(ledger: seq<Record>) {
    forall i :: 0 <= i < |ledger| && ledger[i].Prepared? ==> PreconditionsKept(ledger[i])
  }

  lemma {:induction false} KeptByWrites(d: Disk, ws: seq<Write>)
    requires LedgerKept(d.ledger) && PreparesKept(ws)
    ensures LedgerKept(ApplyAll(d, ws).ledger)
    decreases |ws|
  {
    if ws != [] {
      assert PreparesKept(ws[1..]) by {
        assert forall i :: 0 <= i < |ws[1..]| ==> ws[1..][i] == ws[i + 1];
      }
      KeptByWrites(Apply(d, ws[0]), ws[1..]);
    }
  }

  lemma PreparesConcat(a: seq<Write>, b: seq<Write>)
    requires PreparesKept(a) && PreparesKept(b)
    ensures PreparesKept(a + b)
  {
  }

  lemma {:induction false} ReplacingPreparesNone(d: Disk, id: Id, targets: seq<Target>)
    ensures PreparesKept(ReplaceWrites(d, id, targets))
  {
    if targets != [] {
      ReplacingPreparesNone(d, id, targets[..|targets| - 1]);
    }
  }

  lemma {:induction false} StagingPreparesNone(live: map<Uri, Content>, id: Id, targets: map<Uri, Content>,
                                               uris: seq<Uri>)
    requires forall uri :: uri in uris ==> uri in targets
    ensures PreparesKept(SnapshotWrites(live, id, targets, uris))
  {
    if uris != [] {
      StagingPreparesNone(live, id, targets, uris[..|uris| - 1]);
    }
  }

  lemma {:induction false} RollingPreparesNone(d: Disk, pending: seq<Record>, done: seq<Id>)
    requires forall r :: r in pending ==> r.Prepared?
    ensures PreparesKept(RollForward(d, pending, done).writes)
    decreases |pending|
  {
    if pending != [] {
      var first, r := TransactionPlan(d, pending[0]), pending[0];
      ReplacingPreparesNone(d, r.id, r.targets);
      PreparesConcat(ReplaceWrites(d, r.id, r.targets), [AppendRecord(Committed(r.id, true, r.authorization))]);
      var rest := RollForward(ApplyAll(d, first.writes), pending[1..], done + [r.id]);
      RollingPreparesNone(ApplyAll(d, first.writes), pending[1..], done + [r.id]);
      PreparesConcat(first.writes, rest.writes);
    }
  }

  lemma RecoveryPreparesNone(d: Disk)
    ensures PreparesKept(RecoverPlan(d).writes)
  {
    var validated := ValidateLedger(d.bundles, d.ledger);
    if validated.Some? {
      ValidatedIsSound(d.bundles, d.ledger);
      RollingPreparesNone(d, Uncommitted(validated.value, validated.value.ordered), []);
    }
  }

  lemma PreparingPreparesKept(d: Disk, req: Request)
    requires KeepsPreconditions(req)
    ensures PreparesKept(PreparePlan(d, req).writes)
  {
    if RequestPreconditionsHold(d.live, req.preconditions) && Committable(req) {
      var targets, here := StampedTargets(d.live, req), ApplyAll(d, PrepareWrites(d.live, req));
      StagingPreparesNone(d.live, RequestId(d.live, req), targets, SortSet(targets.Keys));
      RecordKeptIff(d.live, req);
      PreparesConcat(StageWrites(d.live, req), [AppendRecord(PreparedRecord(d.live, req))]);
      RecoveryPreparesNone(here);
      PreparesConcat(PrepareWrites(d.live, req), RecoverPlan(here).writes);
    }
  }

  lemma CommitPreparesKept(d: Disk, req: Request)
    requires KeepsPreconditions(req)
    ensures PreparesKept(CommitPlan(d, req).writes)
  {
    RecoveryPreparesNone(d);
    var base := ApplyAll(d, RecoverPlan(d).writes);
    PreparingPreparesKept(base, req);
    PreparesConcat(RecoverPlan(d).writes, PreparePlan(base, req).writes);
  }

  /** Every request of the run keeps its preconditions. */
  predicate AllKeep(ops: seq<Op>) {
    forall op :: op in ops && op.DoCommit? ==> KeepsPreconditions(op.req)
  }

  lemma {:induction false} RunKeepsPreconditions(w: World, ops: seq<Op>)
    requires AllKeep(ops)
    ensures LedgerKept(Run(Initial(w), ops).ledger)
  {
    if ops != [] {
      var op, d := ops[|ops| - 1], Run(Initial(w), ops[..|ops| - 1]);
      RunKeepsPreconditions(w, ops[..|ops| - 1]);
      if !op.External? {
        if op.DoCommit? { CommitPreparesKept(d, op.req); } else { RecoveryPreparesNone(d); }
        var ws := PlanOf(d, op).writes;
        var n := if op.fuel < |ws| then op.fuel else |ws|;
        assert ws[..|ws|] == ws;
        assert PreparesKept(ws[..n]);
        KeptByWrites(d, ws[..n]);
      }
    }
  }

  /** Over every run whose requests change no file named in their preconditions, whatever recovery can do it can do
      again after dying anywhere. */
  lemma KeptRunsRestartable(w: World, ops: seq<Op>)
    requires (forall op :: op in ops ==> Permitted(w, op)) && AllKeep(ops)
    ensures var d := Run(Initial(w), ops);
            RecoverPlan(d).outcome.Returned? ==> Restartable(d)
  {
    RunKeepsPreconditions(w, ops);
    LedgerKeptPending(Run(Initial(w), ops));
    ReachableRestartableIff(w, ops);
  }

  lemma LedgerKeptPending(d: Disk)
    requires LedgerKept(d.ledger)
    ensures PendingKept(d)
  {
  }
}
