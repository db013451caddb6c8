/** Safety of the canonical transition store over whole runs. */
module TransitionPromises {
  import opened Prelude
  import opened TransitionModel
  import opened TransitionRecords
  import opened TransitionRuns
  import opened TransitionCrash
  import opened TransitionTheorems
  import opened TransitionCommit
  import opened TransitionWedged

  /** One call that may die after `fuel` storage operations, or another program changing a file. */
  datatype Op =
    | DoCommit(req: Request, fuel: nat)
    | DoRecover(fuel: nat)
    | External(uri: Uri, content: Option<Content>)

  function PlanOf(d: Disk, op: Op): Plan
    requires !op.External?
  {
    if op.DoCommit? then CommitPlan(d, op.req) else RecoverPlan(d)
  }

  function Step(d: Disk, op: Op): Disk {
    match op
    case External(uri, content) =>
      d.(live := match content case Some(c) => d.live[uri := c] case None => d.live - {uri})
    case _ =>
      var writes := PlanOf(d, op).writes;
      if op.fuel < |writes| then ApplyAll(d, writes[..op.fuel]) else ApplyAll(d, writes)
  }

  function Run(d: Disk, ops: seq<Op>): Disk {
    if ops == [] then d else Step(Run(d, ops[..|ops| - 1]), ops[|ops| - 1])
  }

  /** Only the store writes managed files. */
  ghost predicate Permitted(w: World, op: Op) {
    match op
    case DoCommit(req, _) => Confined(w, req)
    case DoRecover(_) => true
    case External(uri, _) => uri !in w.managed
  }

  /** Every request of the run binds its claim graph. */
  predicate AllBound(ops: seq<Op>) {
    forall op :: op in ops && op.DoCommit? && Committable(op.req) ==> RequestBindsGraph(op.req)
  }

  function Initial(w: World): Disk {
    Disk(w.files, map[], [])
  }

  // ---------- commit on any reachable disk ----------

  /** A commit keeps the invariant at every point. */
  lemma CommitKeepsThroughout(w: World, d: Disk, req: Request)
    requires Invariant(w, d) && Admissible(w, req)
    ensures Throughout(Keeps(w), d, CommitPlan(d, req).writes)
  {
    RecoverReachable(w, d);
    assert ApplyAll(d, [][..0]) == d;
    var first := RecoverPlan(d);
    if req.targets != map[] && first.outcome.Returned? {
      var here := ApplyAll(d, first.writes);
      assert ApplyAll(here, [][..0]) == here;
      if Ready(here, req) {
        StageReachable(w, here, req);
      } else {
        assert PreparePlan(here, req).writes == [];
      }
      ThroughoutConcat(Keeps(w), d, first.writes, PreparePlan(here, req).writes);
    }
  }

  /** A commit keeps the disk consistent at every point, whether its graph is bound or not. */
  lemma CommitConsistent(w: World, d: Disk, req: Request)
    requires Consistent(w, d) && Confined(w, req)
    ensures Throughout(KeepsConsistent(w), d, CommitPlan(d, req).writes)
  {
    assert ApplyAll(d, [][..0]) == d;
    RecoveryConsistent(w, d);
    var first := RecoverPlan(d);
    if req.targets != map[] && first.outcome.Returned? {
      var here := ApplyAll(d, first.writes);
      PreparePlanConsistent(w, here, req);
      ThroughoutConcat(KeepsConsistent(w), d, first.writes, PreparePlan(here, req).writes);
    }
  }

  lemma RecoveryConsistent(w: World, d: Disk)
    requires Consistent(w, d)
    ensures Throughout(KeepsConsistent(w), d, RecoverPlan(d).writes)
    ensures RecoverPlan(d).outcome.Returned? ==>
              Invariant(w, d) && var d' := ApplyAll(d, RecoverPlan(d).writes); Invariant(w, d') && !Pending(d'.ledger)
  {
    assert ApplyAll(d, [][..0]) == d;
    if Invariant(w, d) {
      RecoverReachable(w, d);
      ConsistentWherever(w, d, RecoverPlan(d).writes);
    } else {
      WedgedRejects(w, d, d.live);
      assert d.(live := d.live) == d;
    }
  }

  lemma ExternalKeeps(w: World, d: Disk, op: Op)
    requires Invariant(w, d) && op.External? && Permitted(w, op)
    ensures Invariant(w, Step(d, op))
  {
    var live := Step(d, op).live;
    forall uri | uri in w.managed ensures AgreeAt(uri, live, d.live) {
    }
    var ps := PreparedOf(d.ledger);
    assert LiveMatches(w, live, ps, Pending(d.ledger));
  }

  lemma ExternalConsistent(w: World, d: Disk, op: Op)
    requires Consistent(w, d) && op.External? && Permitted(w, op)
    ensures Consistent(w, Step(d, op)) && (Invariant(w, d) ==> Invariant(w, Step(d, op)))
  {
    if Invariant(w, d) {
      ExternalKeeps(w, d, op);
    } else {
      ExternalKeeps(w, Before(d), op);
      assert Before(Step(d, op)) == Step(Before(d), op);
    }
  }

  lemma StepConsistent(w: World, d: Disk, op: Op)
    requires Consistent(w, d) && Permitted(w, op)
    ensures Consistent(w, Step(d, op))
  {
    if op.External? {
      ExternalConsistent(w, d, op);
    } else {
      if op.DoCommit? { CommitConsistent(w, d, op.req); } else { RecoveryConsistent(w, d); }
      var writes := PlanOf(d, op).writes;
      var k := if op.fuel < |writes| then op.fuel else |writes|;
      ThroughoutEnd(KeepsConsistent(w), d, writes);
      assert KeepsConsistent(w)(ApplyAll(d, writes[..k]));
    }
  }

  lemma StepKeeps(w: World, d: Disk, op: Op)
    requires Invariant(w, d) && Permitted(w, op) && AllBound([op])
    ensures Invariant(w, Step(d, op))
  {
    if op.External? {
      ExternalKeeps(w, d, op);
    } else {
      assert op in [op];
      if op.DoCommit? { CommitKeepsThroughout(w, d, op.req); } else { RecoverReachable(w, d); }
      var writes := PlanOf(d, op).writes;
      var k := if op.fuel < |writes| then op.fuel else |writes|;
      ThroughoutEnd(Keeps(w), d, writes);
      assert Keeps(w)(ApplyAll(d, writes[..k]));
    }
  }

  /** Over every run of commits, recoveries, crashes and outside edits the ledger stays a list of acceptable
      PREPARED/COMMITTED pairs with at most one trailing PREPARED, and no managed file ever holds anything but what the
      transactions before or including the pending one put there, except that a last PREPARED may be unacceptable and
      then nothing is written after it.  That takes a request that does not bind its claim graph. */
  lemma {:induction false} RunKeepsInvariant(w: World, ops: seq<Op>)
    requires forall op :: op in ops ==> Permitted(w, op)
    ensures Consistent(w, Run(Initial(w), ops))
    ensures AllBound(ops) ==> Invariant(w, Run(Initial(w), ops))
  {
    if ops == [] {
      assert PreparedOf([]) == [] && Pairs([]) == [];
    } else {
      var op := ops[|ops| - 1];
      RunKeepsInvariant(w, ops[..|ops| - 1]);
      StepConsistent(w, Run(Initial(w), ops[..|ops| - 1]), op);
      if AllBound(ops) {
        StepKeeps(w, Run(Initial(w), ops[..|ops| - 1]), op);
      }
    }
  }

  // ---------- crash atomicity ----------

  /** The after-snapshots of one transaction. */
  function SnapshotFiles(bundles: Bundles, id: Id, targets: seq<Target>): map<Uri, Content> {
    map uri | uri in Paths(targets) :: Snapshot(bundles, id, Lookup(targets, uri).afterSnapshot)
  }

  /** The files overwritten by the after-snapshots of every PREPARED record, in ledger order. */
  function Replay(bundles: Bundles, files: map<Uri, Content>, ledger: seq<Record>): map<Uri, Content> {
    if ledger == [] then files else
      var r := ledger[|ledger| - 1];
      var earlier := Replay(bundles, files, ledger[..|ledger| - 1]);
      if r.Committed? then earlier else earlier + SnapshotFiles(bundles, r.id, r.targets)
  }

  lemma SnapshotFilesAreAfter(bundles: Bundles, id: Id, targets: seq<Target>)
    requires SnapshotsValid(bundles, id, targets)
    ensures SnapshotFiles(bundles, id, targets) == AfterFiles(targets)
  {
    forall uri | uri in Paths(targets)
      ensures Snapshot(bundles, id, Lookup(targets, uri).afterSnapshot) == Lookup(targets, uri).after.content
    {
      var t := Lookup(targets, uri);
      SnapshotDetermines(bundles, id, t.afterSnapshot, t.after);
    }
  }

  lemma {:induction false} ReplayIsFinal(bundles: Bundles, files: map<Uri, Content>, ledger: seq<Record>)
    requires forall r :: r in PreparedOf(ledger) ==> SnapshotsValid(bundles, r.id, r.targets)
    ensures Replay(bundles, files, ledger) == Final(files, PreparedOf(ledger))
  {
    if ledger != [] {
      var n := |ledger| - 1;
      var r, ps := ledger[n], PreparedOf(ledger);
      ReplayIsFinal(bundles, files, ledger[..n]);
      if r.Prepared? {
        assert ps[..|ps| - 1] == PreparedOf(ledger[..n]) && ps[|ps| - 1] == r && r in ps;
        SnapshotFilesAreAfter(bundles, r.id, r.targets);
      }
    }
  }

  /** Crash atomicity: whatever happened before, once `recover` returns every managed file is the initial file
      overwritten by the after-snapshots of all prepared transactions in ledger order, and nothing is pending. */
  lemma CrashAtomicity(w: World, ops: seq<Op>)
    requires forall op :: op in ops ==> Permitted(w, op)
    ensures var d := Run(Initial(w), ops);
            var plan := RecoverPlan(d);
            var d' := ApplyAll(d, plan.writes);
            plan.outcome.Returned? ==>
              && !Pending(d'.ledger) && PreparedOf(d'.ledger) == PreparedOf(d.ledger)
              && forall uri :: uri in w.managed ==> AgreeAt(uri, d'.live, Replay(d'.bundles, w.files, d'.ledger))
  {
    RunKeepsInvariant(w, ops);
    var d := Run(Initial(w), ops);
    RecoveryConsistent(w, d);
    if RecoverPlan(d).outcome.Returned? {
      RecoverReachable(w, d);
      var d' := ApplyAll(d, RecoverPlan(d).writes);
      AllAccepted(w, d');
      ReplayIsFinal(d'.bundles, w.files, d'.ledger);
    }
  }

  /** A reachable ledger validates exactly when each of its PREPARED records is acceptable by itself, which holds while
      every request binds its graph.  Recovery then returns exactly when the preconditions of the pending transaction
      hold, and is stopped by nothing else. */
  lemma RecoveryReturnsIff(w: World, ops: seq<Op>)
    requires forall op :: op in ops ==> Permitted(w, op)
    ensures var d := Run(Initial(w), ops);
            var outcome, valid := RecoverPlan(d).outcome, ValidateLedger(d.bundles, d.ledger).Some?;
            && (valid <==> forall r :: r in PreparedOf(d.ledger) ==> PreparedAccepted(d.bundles, r))
            && (AllBound(ops) ==> valid)
            && (outcome.Returned? <==>
                  valid && (Pending(d.ledger) ==> PreconditionsHold(d.live, Trailing(d).preconditions)))
            && (!outcome.Returned? ==> outcome == Raised(if valid then PreconditionChanged else InvalidLedger))
  {
    RunKeepsInvariant(w, ops);
    var d := Run(Initial(w), ops);
    ValidatesIff(w, d);
    if Invariant(w, d) {
      RecoverReachable(w, d);
    } else {
      WedgedRejects(w, d, d.live);
      assert d.(live := d.live) == d;
    }
  }

  /** Nothing is pending, or the pending transaction changes no file its preconditions name. */
  predicate PendingKept(d: Disk) {
    Pending(d.ledger) ==> PreconditionsKept(Trailing(d))
  }

  /** Recovery of a reachable disk can be interrupted after any write and repeated with the same result exactly when
      the pending transaction changes no file its preconditions name; once it returned, a further recovery writes
      nothing. */
  lemma ReachableRestartableIff(w: World, ops: seq<Op>)
    requires forall op :: op in ops ==> Permitted(w, op)
    ensures var d := Run(Initial(w), ops);
            RecoverPlan(d).outcome.Returned? ==>
              && (Restartable(d) <==> PendingKept(d))
              && RecoverPlan(ApplyAll(d, RecoverPlan(d).writes)) == Plan([], Returned([]))
  {
    RunKeepsInvariant(w, ops);
    var d := Run(Initial(w), ops);
    RecoveryConsistent(w, d);
    if RecoverPlan(d).outcome.Returned? {
      RecoverReachable(w, d);
      SettledRecovers(w, ApplyAll(d, RecoverPlan(d).writes));
      if Pending(d.ledger) {
        TrailingIsOnlyPending(w, d);
        RestartableIff(d, Trailing(d));
      } else {
        SettledRecovers(w, d);
      }
    }
  }

  // ---------- a commit is all or nothing ----------

  lemma RestartFrom(w: World, d: Disk, k: nat)
    requires Invariant(w, d) && PendingKept(d) && RecoverPlan(d).outcome.Returned? && k <= |RecoverPlan(d).writes|
    ensures var d' := ApplyAll(d, RecoverPlan(d).writes[..k]);
            && RecoverPlan(d').outcome.Returned?
            && ApplyAll(d', RecoverPlan(d').writes) == ApplyAll(d, RecoverPlan(d).writes)
  {
    RecoverReachable(w, d);
    var ws := RecoverPlan(d).writes;
    if k == |ws| {
      assert ws[..k] == ws;
      SettledRecovers(w, ApplyAll(d, ws));
    } else if Pending(d.ledger) {
      TrailingIsOnlyPending(w, d);
      RestartAt(d, Trailing(d), k);
    } else {
      SettledRecovers(w, d);
    }
  }

  lemma {:induction false} SnapshotsOnly(d: Disk, live: map<Uri, Content>, id: Id, targets: map<Uri, Content>,
                                         uris: seq<Uri>, k: nat)
    requires (forall uri :: uri in uris ==> uri in targets) && k <= |SnapshotWrites(live, id, targets, uris)|
    ensures var d' := ApplyAll(d, SnapshotWrites(live, id, targets, uris)[..k]);
            d'.live == d.live && d'.ledger == d.ledger
  {
    if uris != [] {
      var n := |uris| - 1;
      var ws, earlier := SnapshotWrites(live, id, targets, uris), SnapshotWrites(live, id, targets, uris[..n]);
      if k <= |earlier| {
        SnapshotsOnly(d, live, id, targets, uris[..n], k);
        assert ws[..k] == earlier[..k];
      } else {
        SnapshotsOnly(d, live, id, targets, uris[..n], |earlier|);
        assert ws[..|earlier| + 1] == earlier[..|earlier|] + [ws[|earlier|]];
        ApplyAllConcat(d, earlier[..|earlier|], [ws[|earlier|]]);
        ApplyOne(ApplyAll(d, earlier[..|earlier|]), ws[|earlier|]);
        if k == |ws| {
          assert ws[..k] == ws[..k - 1] + [ws[k - 1]];
          ApplyAllConcat(d, ws[..k - 1], [ws[k - 1]]);
          ApplyOne(ApplyAll(d, ws[..k - 1]), ws[k - 1]);
        }
      }
    }
  }

  /** A commit dying while staging leaves the live files and the ledger alone. */
  lemma StagingLeavesNoTrace(w: World, d: Disk, req: Request, k: nat)
    requires Invariant(w, d) && !Pending(d.ledger) && Admissible(w, req) && Committable(req)
    requires k < |PrepareWrites(d.live, req)|
    ensures var d' := ApplyAll(d, PrepareWrites(d.live, req)[..k]);
            RecoverPlan(d') == Plan([], Returned([])) && d'.live == d.live && d'.ledger == d.ledger
  {
    var targets, ws := StampedTargets(d.live, req), PrepareWrites(d.live, req);
    assert ws[..k] == StageWrites(d.live, req)[..k];
    SnapshotsOnly(d, d.live, RequestId(d.live, req), targets, SortSet(targets.Keys), k);
    PreparingKeeps(w, d, req);
    assert Keeps(w)(ApplyAll(d, ws[..k]));
    SettledRecovers(w, ApplyAll(d, ws[..k]));
  }

  /** How many storage operations a commit performs up to and including its PREPARED append. */
  function PreparedAt(d: Disk, req: Request): nat
    requires Committable(req)
  {
    var first := RecoverPlan(d);
    |first.writes| + |PrepareWrites(ApplyAll(d, first.writes).live, req)|
  }

  lemma CommitIs(d: Disk, req: Request)
    requires req.targets != map[] && RecoverPlan(d).outcome.Returned?
    ensures var rest := PreparePlan(ApplyAll(d, RecoverPlan(d).writes), req);
            CommitPlan(d, req) == Plan(RecoverPlan(d).writes + rest.writes, rest.outcome)
  {
  }

  /** What a crash inside three consecutive batches of operations leaves. */
  lemma ApplyThree(d: Disk, a: seq<Write>, b: seq<Write>, c: seq<Write>, k: nat)
    requires k <= |a| + |b| + |c|
    ensures ApplyAll(d, (a + (b + c))[..k]) ==
            if k <= |a| then ApplyAll(d, a[..k])
            else if k < |a| + |b| then ApplyAll(ApplyAll(d, a), b[..k - |a|])
            else ApplyAll(ApplyAll(ApplyAll(d, a), b), c[..k - |a| - |b|])
  {
    var all := a + (b + c);
    if k <= |a| {
      assert all[..k] == a[..k];
    } else if k < |a| + |b| {
      assert all[..k] == a + b[..k - |a|];
      ApplyAllConcat(d, a, b[..k - |a|]);
    } else {
      var j := k - |a| - |b|;
      assert all[..k] == a + (b + c[..j]);
      ApplyAllConcat(d, a, b + c[..j]);
      ApplyAllConcat(ApplyAll(d, a), b, c[..j]);
    }
  }

  lemma DiesFinishing(w: World, d: Disk, req: Request, j: nat)
    requires Invariant(w, d) && !Pending(d.ledger) && Admissible(w, req) && Ready(d, req) && KeepsPreconditions(req)
    requires j <= |RecoverPlan(ApplyAll(d, PrepareWrites(d.live, req))).writes|
    ensures var here := ApplyAll(d, PrepareWrites(d.live, req));
            var crashed := ApplyAll(here, RecoverPlan(here).writes[..j]);
            var after := ApplyAll(crashed, RecoverPlan(crashed).writes);
            var r := PreparedRecord(d.live, req);
            && RecoverPlan(crashed).outcome.Returned?
            && after.live == d.live + StampedTargets(d.live, req) && after.ledger == d.ledger + [r, CommitOf(r)]
  {
    var here := ApplyAll(d, PrepareWrites(d.live, req));
    PreparingKeeps(w, d, req);
    AppendPrepared(d, PreparedRecord(d.live, req));
    FinishPrepared(w, here, d.live, req);
    RecordKeptIff(d.live, req);
    RestartFrom(w, here, j);
    StageReachable(w, d, req);
    ApplyAllConcat(d, PrepareWrites(d.live, req), RecoverPlan(here).writes);
  }

  /** Recovering from `crashed` succeeds and leaves these live files and this ledger. */
  ghost predicate Settles(crashed: Disk, live: map<Uri, Content>, ledger: seq<Record>) {
    && RecoverPlan(crashed).outcome.Returned?
    && ApplyAll(crashed, RecoverPlan(crashed).writes).live == live
    && ApplyAll(crashed, RecoverPlan(crashed).writes).ledger == ledger
  }

  lemma SettlesAnywhere(d: Disk, a: seq<Write>, b: seq<Write>, c: seq<Write>, before: Disk, after: Disk, k: nat)
    requires k <= |a| + |b| + |c| && b != []
    requires forall j :: 0 <= j <= |a| ==> Settles(ApplyAll(d, a[..j]), before.live, before.ledger)
    requires forall j :: 0 <= j < |b| ==> Settles(ApplyAll(ApplyAll(d, a), b[..j]), before.live, before.ledger)
    requires forall j :: 0 <= j <= |c| ==> Settles(ApplyAll(ApplyAll(ApplyAll(d, a), b), c[..j]), after.live, after.ledger)
    ensures var target := if k < |a| + |b| then before else after;
            Settles(ApplyAll(d, (a + (b + c))[..k]), target.live, target.ledger)
  {
    ApplyThree(d, a, b, c, k);
  }

  /** A commit's three batches of operations: finishing what was pending, preparing, and moving into place. */
  lemma DiesAnywhere(w: World, d: Disk, base: Disk, req: Request, first: seq<Write>, second: seq<Write>,
                     third: seq<Write>, done: Disk, k: nat)
    requires Invariant(w, d) && PendingKept(d) && RecoverPlan(d).outcome.Returned? && KeepsPreconditions(req)
    requires first == RecoverPlan(d).writes && base == ApplyAll(d, first)
    requires Invariant(w, base) && !Pending(base.ledger) && Admissible(w, req) && Ready(base, req)
    requires second == PrepareWrites(base.live, req) && third == RecoverPlan(ApplyAll(base, second)).writes
    requires done.live == base.live + StampedTargets(base.live, req)
    requires done.ledger == base.ledger + [PreparedRecord(base.live, req), CommitOf(PreparedRecord(base.live, req))]
    requires k <= |first| + |second| + |third|
    ensures var target := if k < |first| + |second| then base else done;
            Settles(ApplyAll(d, (first + (second + third))[..k]), target.live, target.ledger)
  {
    forall j | 0 <= j <= |first| ensures Settles(ApplyAll(d, first[..j]), base.live, base.ledger) {
      RestartFrom(w, d, j);
    }
    forall j | 0 <= j < |second| ensures Settles(ApplyAll(base, second[..j]), base.live, base.ledger) {
      StagingLeavesNoTrace(w, base, req, j);
    }
    forall j | 0 <= j <= |third|
      ensures Settles(ApplyAll(ApplyAll(base, second), third[..j]), done.live, done.ledger)
    {
      DiesFinishing(w, base, req, j);
    }
    SettlesAnywhere(d, first, second, third, base, done, k);
  }

  /** Recovery after a commit that dies after `k` writes: no trace of it if that is before its PREPARED append, the
      commit applied in full with one PREPARED/COMMITTED pair if it is after. */
  ghost predicate AllOrNothing(d: Disk, req: Request, k: nat)
    requires Committable(req) && k <= |CommitPlan(d, req).writes|
  {
    var base := ApplyAll(d, RecoverPlan(d).writes);
    var crashed := ApplyAll(d, CommitPlan(d, req).writes[..k]);
    var r := PreparedRecord(base.live, req);
    if k < PreparedAt(d, req) then Settles(crashed, base.live, base.ledger)
    else Settles(crashed, base.live + StampedTargets(base.live, req), base.ledger + [r, CommitOf(r)])
  }

  /** A commit that dies before its PREPARED append leaves no trace once recovery has run; one that dies after it, or
      not at all, is applied in full and adds exactly one PREPARED/COMMITTED pair. */
  lemma CommitAllOrNothing(w: World, d: Disk, req: Request, k: nat)
    requires Invariant(w, d) && PendingKept(d) && Admissible(w, req) && RecoverPlan(d).outcome.Returned?
    requires Ready(ApplyAll(d, RecoverPlan(d).writes), req) && KeepsPreconditions(req)
    requires k <= |CommitPlan(d, req).writes|
    ensures AllOrNothing(d, req, k)
  {
    RecoverReachable(w, d);
    var first := RecoverPlan(d).writes;
    var base := ApplyAll(d, first);
    CommitIs(d, req);
    StageReachable(w, base, req);
    var second := PrepareWrites(base.live, req);
    var r := PreparedRecord(base.live, req);
    var done := Disk(base.live + StampedTargets(base.live, req), map[], base.ledger + [r, CommitOf(r)]);
    DiesAnywhere(w, d, base, req, first, second, RecoverPlan(ApplyAll(base, second)).writes, done, k);
  }

  // ---------- when a commit succeeds ----------

  /** An uninterrupted commit returns exactly when what was pending can be finished, its own checks pass, and the
      caller's claim-graph digest is that of its graph target. */
  lemma CommitReturnsIff(w: World, d: Disk, req: Request)
    requires Consistent(w, d) && Confined(w, req)
    ensures CommitPlan(d, req).outcome.Returned? <==>
              && RecoverPlan(d).outcome.Returned?
              && Ready(ApplyAll(d, RecoverPlan(d).writes), req)
              && RequestBindsGraph(req)
  {
    RecoveryConsistent(w, d);
    if req.targets != map[] && RecoverPlan(d).outcome.Returned? {
      var base := ApplyAll(d, RecoverPlan(d).writes);
      CommitIs(d, req);
      if Ready(base, req) {
        if RequestBindsGraph(req) {
          StageReachable(w, base, req);
        } else {
          UnboundStops(w, base, req);
        }
      }
    }
  }

  /** `commit` does not check the claim-graph digest before PREPARED. When it is not bound the commit raises and no
      later recovery can succeed, whatever the files hold by then. */
  lemma UnboundGraphWedges(w: World, d: Disk, req: Request, live: map<Uri, Content>)
    requires Consistent(w, d) && Confined(w, req) && RecoverPlan(d).outcome.Returned?
    requires Ready(ApplyAll(d, RecoverPlan(d).writes), req) && !RequestBindsGraph(req)
    ensures var plan := CommitPlan(d, req);
            && plan.outcome == Raised(InvalidLedger)
            && RecoverPlan(ApplyAll(d, plan.writes).(live := live)) == Plan([], Raised(InvalidLedger))
  {
    RecoveryConsistent(w, d);
    var first := RecoverPlan(d).writes;
    var base := ApplyAll(d, first);
    CommitIs(d, req);
    UnboundStops(w, base, req);
    PreparingConsistent(w, base, req);
    ApplyAllConcat(d, first, PreparePlan(base, req).writes);
    WedgedRejects(w, ApplyAll(d, CommitPlan(d, req).writes), live);
  }

  lemma WedgedWritesNothing(w: World, d: Disk, op: Op)
    requires Wedged(w, d) && !op.External?
    ensures Step(d, op) == d
  {
    WedgedRejects(w, d, d.live);
    assert d.(live := d.live) == d;
    assert PlanOf(d, op).writes == [];
    assert ApplyAll(d, []) == d;
  }

  lemma WedgedStep(w: World, d: Disk, op: Op)
    requires Wedged(w, d) && Permitted(w, op)
    ensures var d' := Step(d, op);
            && Wedged(w, d') && d'.ledger == d.ledger && d'.bundles == d.bundles
            && forall uri :: uri in w.managed ==> AgreeAt(uri, d'.live, d.live)
  {
    if op.External? {
      ExternalKeeps(w, Before(d), op);
      assert Before(Step(d, op)) == Step(Before(d), op);
    } else {
      WedgedWritesNothing(w, d, op);
    }
  }

  /** Once wedged, no run of commits and recoveries ever writes anything again. */
  lemma {:induction false} WedgedForever(w: World, d: Disk, ops: seq<Op>)
    requires Wedged(w, d) && forall op :: op in ops ==> Permitted(w, op)
    ensures var d' := Run(d, ops);
            && Wedged(w, d') && d'.ledger == d.ledger && d'.bundles == d.bundles
            && forall uri :: uri in w.managed ==> AgreeAt(uri, d'.live, d.live)
  {
    if ops != [] {
      WedgedForever(w, d, ops[..|ops| - 1]);
      WedgedStep(w, Run(d, ops[..|ops| - 1]), ops[|ops| - 1]);
    }
  }

  /** A first commit of a trusted state alone, with the digest of a graph it does not write, wedges a new store. */
  lemma UnboundGraphExample(live: map<Uri, Content>)
    ensures var trusted := Document(Doc(None, None, None, "{}"));
            var req := Request(map["trusted" := trusted], "audit", "trusted", Sha256(Text("graph")), map[]);
            var d := Disk(map["trusted" := trusted], map[], []);
            && CommitPlan(d, req).outcome == Raised(InvalidLedger)
            && RecoverPlan(ApplyAll(d, CommitPlan(d, req).writes).(live := live)) == Plan([], Raised(InvalidLedger))
  {
    var trusted := Document(Doc(None, None, None, "{}"));
    var req := Request(map["trusted" := trusted], "audit", "trusted", Sha256(Text("graph")), map[]);
    var w := World(map["trusted" := trusted], {"trusted"}, "trusted");
    RunKeepsInvariant(w, []);
    SettledRecovers(w, Initial(w));
    assert "trusted" in req.targets;
    UnboundGraphWedges(w, Initial(w), req, live);
  }

  // ---------- the hash chain ----------

  /** The digest the transactions so far leave at `uri`: the after-digest of the last one listing it. */
  function LastDigest(files: map<Uri, Content>, ps: seq<Record>, uri: Uri): Digest
    requires forall r :: r in ps ==> r.Prepared?
  {
    if ps == [] then Sha256(Read(files, uri)) else
      var r := ps[|ps| - 1];
      if uri in Paths(r.targets) then Lookup(r.targets, uri).after else LastDigest(files, ps[..|ps| - 1], uri)
  }

  lemma {:induction false} LastDigestIsFinal(files: map<Uri, Content>, ps: seq<Record>, uri: Uri)
    requires forall r :: r in ps ==> r.Prepared?
    ensures LastDigest(files, ps, uri) == Sha256(Read(Final(files, ps), uri))
  {
    if ps != [] {
      LastDigestIsFinal(files, ps[..|ps| - 1], uri);
    }
  }

  /** Each target of transaction `k` continues the chain of digests of its path. */
  ghost predicate DigestsLinked(w: World, ps: seq<Record>, k: nat)
    requires k < |ps| && forall r :: r in ps ==> r.Prepared?
  {
    forall t :: t in ps[k].targets ==> t.before == LastDigest(w.files, ps[..k], t.path)
  }

  /** The trusted state carries the id of transaction `k` after it, and that of transaction `k - 1` before it. */
  ghost predicate IdsLinked(w: World, ps: seq<Record>, k: nat)
    requires k < |ps| && forall r :: r in ps ==> r.Prepared?
  {
    && w.trusted in Paths(ps[k].targets)
    && var trusted := Lookup(ps[k].targets, w.trusted);
    && trusted.after.content.Document? && trusted.after.content.doc.lastTransitionId == Some(ps[k].id)
    && (k > 0 ==> trusted.before.content.Document?
                  && trusted.before.content.doc.lastTransitionId == Some(ps[k - 1].id))
  }

  /** Transaction `k` continues the chain of digests and of ids. */
  ghost predicate Linked(w: World, ps: seq<Record>, k: nat)
    requires k < |ps| && forall r :: r in ps ==> r.Prepared?
  {
    DigestsLinked(w, ps, k) && IdsLinked(w, ps, k)
  }

  lemma ChainedDigests(w: World, bundles: Bundles, ps: seq<Record>, k: nat)
    requires k < |ps| && (forall r :: r in ps ==> r.Prepared?) && Continues(w, bundles, ps, k)
    ensures DigestsLinked(w, ps, k)
  {
    forall t | t in ps[k].targets ensures t.before == LastDigest(w.files, ps[..k], t.path) {
      LastDigestIsFinal(w.files, ps[..k], t.path);
    }
  }

  /** The before-digest of a target is that of the file the earlier transactions left. */
  lemma BeforeIs(w: World, bundles: Bundles, ps: seq<Record>, k: nat, t: Target)
    requires k < |ps| && (forall r :: r in ps ==> r.Prepared?) && Continues(w, bundles, ps, k) && t in ps[k].targets
    ensures t.before == Sha256(Read(Final(w.files, ps[..k]), t.path))
  {
  }

  /** What transaction `k` did to the trusted state, given what the earlier ones left. */
  lemma IdsFromFiles(w: World, ps: seq<Record>, k: nat, files: map<Uri, Content>)
    requires k < |ps| && (forall r :: r in ps ==> r.Prepared?) && w.trusted in Paths(ps[k].targets)
    requires var t := Lookup(ps[k].targets, w.trusted);
             && t.after.content.Document? && t.after.content.doc.lastTransitionId == Some(ps[k].id)
             && t.before == Sha256(Read(files, w.trusted))
    requires k > 0 ==> w.trusted in files && files[w.trusted].Document?
                       && files[w.trusted].doc.lastTransitionId == Some(ps[k - 1].id)
    ensures IdsLinked(w, ps, k)
  {
  }

  lemma ChainedIds(w: World, bundles: Bundles, ps: seq<Record>, k: nat, files: map<Uri, Content>)
    requires k < |ps| && (forall r :: r in ps ==> r.Prepared?) && Continues(w, bundles, ps, k)
    requires files == Final(w.files, ps[..k])
    requires k > 0 ==> w.trusted in files && files[w.trusted].Document?
                       && files[w.trusted].doc.lastTransitionId == Some(ps[k - 1].id)
    ensures IdsLinked(w, ps, k)
  {
    TrustedAfter(w, bundles, ps, k);
    BeforeIs(w, bundles, ps, k, Lookup(ps[k].targets, w.trusted));
    IdsFromFiles(w, ps, k, files);
  }

  /** The trusted state carries the id of the transaction before `k`. */
  lemma EarlierCarries(w: World, bundles: Bundles, ps: seq<Record>, k: nat)
    requires 0 < k < |ps| && (forall r :: r in ps ==> r.Prepared?) && Chained(w, bundles, ps, k - 1)
    ensures var files := Final(w.files, ps[..k]);
            w.trusted in files && files[w.trusted].Document? && files[w.trusted].doc.lastTransitionId == Some(ps[k - 1].id)
  {
    TrustedCarriesLastId(w, bundles, ps, k - 1);
    assert ps[..k - 1 + 1] == ps[..k];
  }

  lemma ContinuesIsLinked(w: World, bundles: Bundles, ps: seq<Record>, k: nat)
    requires k < |ps| && (forall r :: r in ps ==> r.Prepared?) && Continues(w, bundles, ps, k)
    requires k > 0 ==> Chained(w, bundles, ps, k - 1)
    ensures Linked(w, ps, k)
  {
    if k > 0 {
      EarlierCarries(w, bundles, ps, k);
    }
    ChainedDigests(w, bundles, ps, k);
    ChainedIds(w, bundles, ps, k, Final(w.files, ps[..k]));
  }

  ghost predicate AllLinked(w: World, ps: seq<Record>)
    requires forall r :: r in ps ==> r.Prepared?
  {
    (forall k :: 0 <= k < |ps| ==> Linked(w, ps, k)) && DistinctIds(ps)
  }

  lemma ChainedIsLinked(w: World, bundles: Bundles, ps: seq<Record>)
    requires (forall r :: r in ps ==> r.Prepared?) && AllChained(w, bundles, ps)
    ensures AllLinked(w, ps)
  {
    forall k | 0 <= k < |ps| ensures Linked(w, ps, k) {
      assert Chained(w, bundles, ps, k);
      if k > 0 {
        assert Chained(w, bundles, ps, k - 1);
      }
      ContinuesIsLinked(w, bundles, ps, k);
    }
    IdsDistinct(w, bundles, ps);
  }

  lemma LinkedLonger(w: World, ps: seq<Record>, r: Record, k: nat)
    requires k < |ps| && r.Prepared? && (forall x :: x in ps ==> x.Prepared?) && Linked(w, ps, k)
    ensures Linked(w, ps + [r], k)
  {
    var longer := ps + [r];
    assert longer[..k] == ps[..k] && longer[k] == ps[k];
    if k > 0 {
      assert longer[k - 1] == ps[k - 1];
    }
  }

  lemma LastLinked(w: World, bundles: Bundles, ps: seq<Record>, r: Record)
    requires r.Prepared? && (forall x :: x in ps ==> x.Prepared?) && AllChained(w, bundles, ps)
    requires Continues(w, bundles, ps + [r], |ps|)
    ensures Linked(w, ps + [r], |ps|)
  {
    if ps != [] {
      ChainedGrows(w, bundles, bundles, ps, ps + [r], |ps| - 1);
    }
    ContinuesIsLinked(w, bundles, ps + [r], |ps|);
  }

  lemma NewIdDistinct(ps: seq<Record>, r: Record)
    requires DistinctIds(ps) && r.id !in Ids(ps)
    ensures DistinctIds(ps + [r])
  {
    forall i | 0 <= i < |ps| ensures ps[i].id != r.id {
      assert ps[i] in ps;
    }
  }

  /** One more record continuing the chain. */
  lemma OneMoreLinked(w: World, bundles: Bundles, ps: seq<Record>, r: Record)
    requires r.Prepared? && (forall x :: x in ps ==> x.Prepared?) && AllChained(w, bundles, ps)
    requires Continues(w, bundles, ps + [r], |ps|) && r.id !in Ids(ps)
    ensures AllLinked(w, ps + [r])
  {
    ChainedIsLinked(w, bundles, ps);
    NewIdDistinct(ps, r);
    LastLinked(w, bundles, ps, r);
    forall k | 0 <= k < |ps + [r]| ensures Linked(w, ps + [r], k) {
      if k < |ps| {
        LinkedLonger(w, ps, r, k);
      }
    }
  }

  /** In every reachable ledger each target's before-digest is the after-digest of the last earlier transition on that
      path, the trusted state's ids spell the ledger order, and no id occurs twice. */
  lemma HashChain(w: World, ops: seq<Op>)
    requires forall op :: op in ops ==> Permitted(w, op)
    ensures AllLinked(w, PreparedOf(Run(Initial(w), ops).ledger))
  {
    RunKeepsInvariant(w, ops);
    var d := Run(Initial(w), ops);
    if Invariant(w, d) {
      ChainedIsLinked(w, d.bundles, PreparedOf(d.ledger));
    } else {
      OneMoreLinked(w, d.bundles, PreparedOf(Before(d).ledger), d.ledger[|d.ledger| - 1]);
    }
  }

  lemma TrustedAfter(w: World, bundles: Bundles, ps: seq<Record>, k: nat)
    requires k < |ps| && (forall r :: r in ps ==> r.Prepared?) && Continues(w, bundles, ps, k)
    ensures var trusted := Lookup(ps[k].targets, w.trusted);
            trusted.after.content.Document? && trusted.after.content.doc.lastTransitionId == Some(ps[k].id)
  {
    var t := Lookup(ps[k].targets, w.trusted);
    SnapshotDetermines(bundles, ps[k].id, t.afterSnapshot, t.after);
  }
}
