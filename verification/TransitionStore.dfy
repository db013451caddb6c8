/** `CanonicalTransitionStore`: the imperative operations, each performing exactly its plan up to a crash. */
module TransitionStore {
  import opened Prelude
  import opened TransitionModel

  class CanonicalTransitionStore {
    var live: map<Uri, Content>
    var bundles: Bundles
    var ledger: seq<Record>
    /** Storage operations left before the process dies; any value is possible. */
    var fuel: nat

    function Disk(): Disk
      reads this
    {
      TransitionModel.Disk.Disk(live, bundles, ledger)
    }

    constructor (files: map<Uri, Content>, fuel: nat)
      ensures Disk() == TransitionModel.Disk.Disk(files, map[], []) && this.fuel == fuel
    {
      live, bundles, ledger := files, map[], [];
      this.fuel := fuel;
    }

    /** `atomic_write_bytes` or `append_jsonl`: all of the write happens, or the process is dead before it. */
    method Perform(w: Write) returns (alive: bool)
      modifies this
      ensures alive == (old(fuel) > 0)
      ensures alive ==> Disk() == Apply(old(Disk()), w) && fuel == old(fuel) - 1
      ensures !alive ==> Disk() == old(Disk()) && fuel == old(fuel)
    {
      alive := fuel > 0;
      if alive {
        fuel := fuel - 1;
        match w
        case WriteSnapshot(id, name, content) => bundles := bundles[(id, name) := content];
        case AppendRecord(record) => ledger := ledger + [record];
        case ReplaceLive(uri, content) => live := live[uri := content];
      }
    }

    /** The precondition loop of `_validate_prepared_record`: `None` on a duplicate path. */
    static method CheckPreconditions(ps: seq<Precondition>) returns (preconditions: Option<map<Uri, Digest>>)
      ensures preconditions == if DistinctPreconditions(ps) then Some(PreconditionMap(ps)) else None
    {
      var seen: map<Uri, Digest> := map[];
      for i := 0 to |ps|
        invariant DistinctPreconditions(ps[..i]) && seen == PreconditionMap(ps[..i])
      {
        var p := ps[i];
        assert ps[..i + 1] == ps[..i] + [p];
        PreconditionsSnoc(ps[..i], p);
        if p.path in seen {
          DistinctPreconditionsPrefix(ps, i + 1);
          return None;
        }
        seen := seen[p.path := p.sha256];
      }
      assert ps[..|ps|] == ps;
      preconditions := Some(seen);
    }

    /** The target loop of `_validate_prepared_record`: the targets whose after-snapshot carries the id. */
    method CheckTargets(id: Id, targets: seq<Target>) returns (trusted: Option<seq<Target>>)
      ensures trusted == if SnapshotsValid(bundles, id, targets) then Some(TrustedTargets(bundles, id, targets))
                         else None
    {
      var seen: set<Uri> := {};
      var found: seq<Target> := [];
      for i := 0 to |targets|
        invariant SnapshotsValid(bundles, id, targets[..i])
        invariant seen == Paths(targets[..i])
        invariant found == TrustedTargets(bundles, id, targets[..i])
      {
        var t := targets[i];
        assert targets[..i + 1] == targets[..i] + [t];
        TrustedTargetsSnoc(bundles, id, targets[..i], t);
        SnapshotsValidSnoc(bundles, id, targets[..i], t);
        SnapshotsValidPrefix(bundles, id, targets, i + 1);
        if t.path in seen || !SnapshotMatches(bundles, id, t.beforeSnapshot, t.before)
           || !SnapshotMatches(bundles, id, t.afterSnapshot, t.after) {
          return None;
        }
        seen := seen + {t.path};
        if CarriesId(bundles, id, t) {
          found := found + [t];
        }
      }
      assert targets[..|targets|] == targets;
      trusted := Some(found);
    }

    /** `_validate_prepared_record`. */
    method ValidatePrepared(r: Record) returns (accepted: bool)
      requires r.Prepared?
      ensures accepted == PreparedAccepted(bundles, r)
    {
      var preconditions := CheckPreconditions(r.preconditions);
      if preconditions.None? || r.targets == [] {
        return false;
      }
      var trusted := CheckTargets(r.id, r.targets);
      if trusted.None? || |trusted.value| != 1 {
        return false;
      }
      var target := trusted.value[0];
      assert target in trusted.value;
      var doc := bundles[(r.id, target.afterSnapshot)].doc;
      if !BindsGraph(doc, r.targets, target.path) {
        return false;
      }
      accepted := r.id == TransitionId(RecordSeed(r.authorization, r.preconditions, r.targets, target.path,
                                                  doc.claimGraphSha256.value));
    }

    /** `_validated_ledger` without the live-file check. */
    method ValidatedLedger() returns (result: Option<Ledger>)
      ensures result == ValidateLedger(bundles, ledger)
    {
      var l := Ledger([], map[], []);
      for i := 0 to |ledger|
        invariant ValidateLedger(bundles, ledger[..i]) == Some(l)
      {
        var r := ledger[i];
        assert ledger[..i + 1][..i] == ledger[..i];
        var next := None;
        match r {
          case Prepared(id, _, _, _) =>
            var accepted := ValidatePrepared(r);
            if accepted && id !in l.prepared {
              next := Some(l.(ordered := l.ordered + [id], prepared := l.prepared[id := r]));
            }
          case Committed(id, _, authorization) =>
            if id !in Ids(l.committed) && id in l.prepared && authorization == l.prepared[id].authorization {
              next := Some(l.(committed := l.committed + [r]));
            }
        }
        assert next == ValidateRecord(bundles, l, r);
        if next.None? {
          RejectedStays(bundles, ledger, i + 1);
          return None;
        }
        l := next.value;
      }
      assert ledger[..|ledger|] == ledger;
      result := Some(l);
    }

    /** `verify_current`. */
    method Verify() returns (error: Option<Error>)
      ensures error == VerifyCurrent(Disk())
    {
      var result := ValidatedLedger();
      if result.None? {
        return Some(InvalidLedger);
      }
      ValidatedIsSound(bundles, ledger);
      var l := result.value;
      if l.committed != [] {
        assert l.committed[|l.committed| - 1] in l.committed;
        var targets := l.prepared[l.committed[|l.committed| - 1].id].targets;
        var matches := LiveMatches(targets);
        if !matches {
          return Some(StateDiffers);
        }
      }
      error := None;
    }

    /** Every target is live with its after-digest. */
    method LiveMatches(targets: seq<Target>) returns (matches: bool)
      ensures matches == forall t :: t in targets ==> Holds(live, t.path, t.after)
    {
      for i := 0 to |targets|
        invariant forall t :: t in targets[..i] ==> Holds(live, t.path, t.after)
      {
        if !Holds(live, targets[i].path, targets[i].after) {
          assert targets[i] in targets;
          return false;
        }
      }
      matches := true;
    }

    /** The loop of `recover` that moves the staged files of one transaction into place. */
    method ReplaceTargets(id: Id, targets: seq<Target>) returns (alive: bool)
      requires DistinctPaths(targets)
      modifies this
      ensures Performs(old(Disk()), old(fuel), Plan(ReplaceWrites(old(Disk()), id, targets), Returned([])),
                       Disk(), fuel, if alive then Returned([]) else Crashed)
      ensures bundles == old(bundles) && ledger == old(ledger)
    {
      ghost var d := Disk();
      ghost var written: seq<Write> := [];
      for i := 0 to |targets|
        invariant bundles == d.bundles && ledger == d.ledger
        invariant written == ReplaceWrites(d, id, targets[..i])
        invariant |written| <= old(fuel) && fuel == old(fuel) - |written|
        invariant Disk() == ApplyAll(d, written)
        invariant forall j :: i <= j < |targets| ==>
                    (Holds(live, targets[j].path, targets[j].after) <==> Holds(d.live, targets[j].path, targets[j].after))
      {
        var t := targets[i];
        assert targets[..i + 1][..i] == targets[..i];
        if !Holds(live, t.path, t.after) {
          var w := ReplaceLive(t.path, Snapshot(bundles, id, t.afterSnapshot));
          assert ReplaceWrites(d, id, targets[..i + 1]) == written + [w];
          ReplaceWritesPrefix(d, id, targets, i + 1);
          alive := Perform(w);
          if !alive {
            assert ReplaceWrites(d, id, targets)[..old(fuel)] == written;
            return;
          }
          ApplyAllConcat(d, written, [w]);
          written := written + [w];
        }
      }
      assert targets[..|targets|] == targets;
      alive := true;
    }

    /** The body of `recover`'s loop: roll one prepared transaction forward. */
    method RollForwardOne(r: Record) returns (outcome: Outcome)
      requires r.Prepared? && SnapshotsValid(bundles, r.id, r.targets)
      modifies this
      ensures Performs(old(Disk()), old(fuel), TransactionPlan(old(Disk()), r), Disk(), fuel, outcome)
      ensures bundles == old(bundles)
    {
      if !PreconditionsHold(live, r.preconditions) {
        return Raised(PreconditionChanged);
      }
      if !TargetsKnown(live, r.targets) {
        return Raised(UnknownTargetState);
      }
      var w := AppendRecord(Committed(r.id, true, r.authorization));
      ghost var writes := ReplaceWrites(Disk(), r.id, r.targets);
      ghost var replace, commit := Plan(writes, Returned([])), Plan([w], Returned([r.id]));
      var alive := ReplaceTargets(r.id, r.targets);
      if !alive {
        PerformsPrefix(old(Disk()), old(fuel), replace, commit, Disk(), fuel);
        return Crashed;
      }
      ghost var here := Disk();
      alive := Perform(w);
      outcome := if alive then Returned([r.id]) else Crashed;
      assert Performs(here, old(fuel) - |writes|, commit, Disk(), fuel, outcome);
      PerformsAfter(old(Disk()), old(fuel), writes, here, commit, Disk(), fuel, outcome);
    }

    /** `recover`. */
    method Recover() returns (outcome: Outcome)
      modifies this
      ensures Performs(old(Disk()), old(fuel), RecoverPlan(old(Disk())), Disk(), fuel, outcome)
    {
      var result := ValidatedLedger();
      if result.None? {
        return Raised(InvalidLedger);
      }
      ValidatedIsSound(bundles, ledger);
      assert Replayable(bundles, result.value);
      outcome := RollForwardAll(result.value);
    }

    /** `recover` once the ledger is validated. */
    method RollForwardAll(l: Ledger) returns (outcome: Outcome)
      requires Replayable(bundles, l)
      modifies this
      ensures Performs(old(Disk()), old(fuel), RollForward(old(Disk()), Uncommitted(l, l.ordered), []),
                       Disk(), fuel, outcome)
    {
      var recovered: seq<Id> := [];
      ghost var d := Disk();
      ghost var all := RollForward(d, Uncommitted(l, l.ordered), []);
      ghost var written: seq<Write> := [];
      assert l.ordered[0..] == l.ordered;
      for i := 0 to |l.ordered|
        invariant Replayable(bundles, l)
        invariant Rolling(d, old(fuel), l, i, all, written, recovered, Disk(), fuel)
      {
        var id := l.ordered[i];
        UncommittedStep(l, i);
        if id !in Ids(l.committed) {
          ghost var here := Disk();
          outcome := RollForwardOne(l.prepared[id]);
          RollsOn(d, old(fuel), l, i, all, written, recovered, here, Disk(), fuel, outcome);
          if !outcome.Returned? {
            return;
          }
          written := written + TransactionPlan(here, l.prepared[id]).writes;
          recovered := recovered + [id];
        }
      }
      assert Uncommitted(l, l.ordered[|l.ordered|..]) == [];
      assert written + [] == written;
      var error := Verify();
      outcome := if error.Some? then Raised(error.value) else Returned(recovered);
    }

    /** The snapshot loop of `commit`. */
    method StageSnapshots(id: Id, targets: map<Uri, Content>, uris: seq<Uri>)
      returns (alive: bool, records: seq<Target>)
      requires forall uri :: uri in uris ==> uri in targets
      modifies this
      ensures Performs(old(Disk()), old(fuel), Plan(SnapshotWrites(old(live), id, targets, uris), Returned([])),
                       Disk(), fuel, if alive then Returned([]) else Crashed)
      ensures alive ==> records == TargetRecords(live, targets, uris)
      ensures live == old(live) && ledger == old(ledger)
    {
      ghost var d := Disk();
      records := [];
      alive := true;
      for i := 0 to |uris|
        invariant alive && live == d.live && ledger == d.ledger
        invariant records == TargetRecords(d.live, targets, uris[..i])
        invariant Performs(d, old(fuel), Plan(SnapshotWrites(d.live, id, targets, uris[..i]), Returned([])),
                           Disk(), fuel, Returned([]))
      {
        var uri := uris[i];
        ghost var here, left := Disk(), fuel;
        assert uris[..i + 1][..i] == uris[..i];
        alive := StageOne(WriteSnapshot(id, BeforeFile(i), Read(live, uri)), WriteSnapshot(id, AfterFile(i), targets[uri]));
        StagesNext(d, old(fuel), d.live, id, targets, uris, i, here, left, Disk(), fuel,
                   if alive then Returned([]) else Crashed);
        if !alive {
          return;
        }
        records := records + [TargetRecord(live, targets, uri, i)];
      }
      assert uris[..|uris|] == uris;
    }

    /** The two snapshots of one target. */
    method StageOne(before: Write, after: Write) returns (alive: bool)
      requires before.WriteSnapshot? && after.WriteSnapshot?
      modifies this
      ensures Performs(old(Disk()), old(fuel), Plan([before, after], Returned([])), Disk(), fuel,
                       if alive then Returned([]) else Crashed)
      ensures live == old(live) && ledger == old(ledger)
    {
      alive := Perform(before);
      if alive {
        alive := Perform(after);
      }
      ApplyTwo(old(Disk()), before, after);
      assert [before, after][..0] == [] && [before, after][..1] == [before];
    }

    /** `commit` after its checks: stage, append PREPARED. */
    method StagePrepared(req: Request) returns (outcome: Outcome)
      requires req.trusted in req.targets && req.targets[req.trusted].Document?
      modifies this
      ensures Performs(old(Disk()), old(fuel), Plan(PrepareWrites(old(live), req), Returned([])),
                       Disk(), fuel, outcome)
    {
      var id := RequestId(live, req);
      var targets := StampedTargets(live, req);
      var uris := SortSet(targets.Keys);
      ghost var writes := SnapshotWrites(live, id, targets, uris);
      ghost var record := PreparedRecord(live, req);
      ghost var append := Plan([AppendRecord(record)], Returned([]));
      var alive, records := StageSnapshots(id, targets, uris);
      if !alive {
        PerformsPrefix(old(Disk()), old(fuel), Plan(writes, Returned([])), append, Disk(), fuel);
        return Crashed;
      }
      ghost var here := Disk();
      var preconditions := PreconditionList(req.preconditions, SortSet(req.preconditions.Keys));
      alive := Perform(AppendRecord(Prepared(id, req.authorization, preconditions, records)));
      outcome := if alive then Returned([]) else Crashed;
      assert Performs(here, old(fuel) - |writes|, append, Disk(), fuel, outcome);
      PerformsAfter(old(Disk()), old(fuel), writes, here, append, Disk(), fuel, outcome);
    }

    /** `commit` after its first recovery. */
    method Prepare(req: Request) returns (outcome: Outcome)
      modifies this
      ensures Performs(old(Disk()), old(fuel), PreparePlan(old(Disk()), req), Disk(), fuel, outcome)
    {
      if !RequestPreconditionsHold(live, req.preconditions) {
        return Raised(PreconditionChanged);
      }
      if req.trusted !in req.targets {
        return Raised(NoTrustedTarget);
      }
      if !req.targets[req.trusted].Document? {
        return Raised(NotAnObject);
      }
      var id := RequestId(live, req);
      if CommittedIn(ledger, id) {
        var error := Verify();
        return if error.Some? then Raised(error.value) else Returned([id]);
      }
      outcome := StageAndRecover(req);
    }

    method StageAndRecover(req: Request) returns (outcome: Outcome)
      requires req.trusted in req.targets && req.targets[req.trusted].Document?
      modifies this
      ensures Performs(old(Disk()), old(fuel), StagePlan(old(Disk()), req), Disk(), fuel, outcome)
    {
      var id := RequestId(live, req);
      ghost var stage := Plan(PrepareWrites(live, req), Returned([]));
      var staged := StagePrepared(req);
      ghost var here, hereFuel := Disk(), fuel;
      outcome := staged;
      if staged.Returned? {
        outcome := Recover();
        outcome := if outcome.Returned? then Returned([id]) else outcome;
      }
      PerformsThen(old(Disk()), old(fuel), stage, after => After(RecoverPlan(after), [id]), here, hereFuel,
                   Disk(), fuel, staged, outcome);
    }

    /** `commit`. */
    method Commit(req: Request) returns (outcome: Outcome)
      modifies this
      ensures Performs(old(Disk()), old(fuel), CommitPlan(old(Disk()), req), Disk(), fuel, outcome)
    {
      if req.targets == map[] {
        return Raised(NoTargets);
      }
      var recovered := Recover();
      ghost var here, hereFuel := Disk(), fuel;
      outcome := recovered;
      if recovered.Returned? {
        outcome := Prepare(req);
      }
      RecoverEnds(old(Disk()));
      PerformsThen(old(Disk()), old(fuel), RecoverPlan(old(Disk())), after => PreparePlan(after, req), here, hereFuel,
                   Disk(), fuel, recovered, outcome);
    }
  }

  /** `first` and then what follows on the disk it left. */
  lemma PerformsThen(d: Disk, fuel: nat, first: Plan, next: Disk -> Plan, here: Disk, hereFuel: nat,
                     after: Disk, left: nat, firstOutcome: Outcome, outcome: Outcome)
    requires first.outcome != Crashed
    requires Performs(d, fuel, first, here, hereFuel, firstOutcome)
    requires if firstOutcome.Returned? then Performs(here, hereFuel, next(here), after, left, outcome)
             else after == here && left == hereFuel && outcome == firstOutcome
    ensures Performs(d, fuel, Then(first, d, next), after, left, outcome)
  {
    if first.outcome.Returned? {
      var rest := next(ApplyAll(d, first.writes));
      if firstOutcome.Returned? {
        PerformsAfter(d, fuel, first.writes, here, rest, after, left, outcome);
      } else {
        PerformsPrefix(d, fuel, first, rest, after, left);
      }
    }
  }

  lemma {:induction false} RollForwardEnds(d: Disk, pending: seq<Record>, done: seq<Id>)
    requires forall r :: r in pending ==> r.Prepared?
    ensures RollForward(d, pending, done).outcome != Crashed
    decreases |pending|
  {
    if pending != [] {
      RollForwardEnds(ApplyAll(d, TransactionPlan(d, pending[0]).writes), pending[1..], done + [pending[0].id]);
    }
  }

  lemma RecoverEnds(d: Disk)
    ensures RecoverPlan(d).outcome != Crashed
  {
    ValidatedIsSound(d.bundles, d.ledger);
    var validated := ValidateLedger(d.bundles, d.ledger);
    if validated.Some? {
      RollForwardEnds(d, Uncommitted(validated.value, validated.value.ordered), []);
    }
  }

  lemma {:induction false} SnapshotWritesPrefix(live: map<Uri, Content>, id: Id, targets: map<Uri, Content>,
                                                uris: seq<Uri>, n: nat)
    requires n <= |uris| && forall uri :: uri in uris ==> uri in targets
    ensures SnapshotWrites(live, id, targets, uris[..n]) <= SnapshotWrites(live, id, targets, uris)
  {
    if n == |uris| {
      assert uris[..n] == uris;
    } else {
      assert uris[..|uris| - 1][..n] == uris[..n];
      SnapshotWritesPrefix(live, id, targets, uris[..|uris| - 1], n);
    }
  }

  /** Every prepared transaction has its snapshots. */
  ghost predicate Replayable(bundles: Bundles, l: Ledger) {
    forall id :: id in l.ordered ==>
      id in l.prepared && l.prepared[id].Prepared? && l.prepared[id].id == id
      && SnapshotsValid(bundles, id, l.prepared[id].targets)
  }

  lemma UncommittedStep(l: Ledger, i: nat)
    requires forall id :: id in l.ordered ==> id in l.prepared && l.prepared[id].Prepared?
    requires i < |l.ordered|
    ensures var later := Uncommitted(l, l.ordered[i + 1..]);
            Uncommitted(l, l.ordered[i..]) ==
            if l.ordered[i] in Ids(l.committed) then later else [l.prepared[l.ordered[i]]] + later
  {
    assert l.ordered[i..][1..] == l.ordered[i + 1..];
  }

  /** The first `i` transactions are rolled forward by `written`; what is left of `all` is the recovery from `now`. */
  ghost predicate Rolling(d: Disk, fuel: nat, l: Ledger, i: nat, all: Plan, written: seq<Write>, done: seq<Id>,
                          now: Disk, left: nat)
    requires forall id :: id in l.ordered ==> id in l.prepared && l.prepared[id].Prepared?
    requires i <= |l.ordered|
  {
    && now.bundles == d.bundles
    && |written| <= fuel && left == fuel - |written| && now == ApplyAll(d, written)
    && all == Preceded(written, RollForward(now, Uncommitted(l, l.ordered[i..]), done))
  }

  lemma RollsOn(d: Disk, fuel: nat, l: Ledger, i: nat, all: Plan, written: seq<Write>, done: seq<Id>, here: Disk,
                after: Disk, left: nat, outcome: Outcome)
    requires forall id :: id in l.ordered ==> id in l.prepared && l.prepared[id].Prepared? && l.prepared[id].id == id
    requires i < |l.ordered| && l.ordered[i] !in Ids(l.committed) && |written| <= fuel
    requires Rolling(d, fuel, l, i, all, written, done, here, fuel - |written|)
    requires Performs(here, fuel - |written|, TransactionPlan(here, l.prepared[l.ordered[i]]), after, left, outcome)
    requires after.bundles == here.bundles
    ensures if outcome.Returned?
            then Rolling(d, fuel, l, i + 1, all, written + TransactionPlan(here, l.prepared[l.ordered[i]]).writes,
                         done + [l.ordered[i]], after, left)
            else Performs(d, fuel, all, after, left, outcome)
  {
    UncommittedStep(l, i);
    var r := l.prepared[l.ordered[i]];
    RollForwardStep(d, fuel, written, here, r, Uncommitted(l, l.ordered[i + 1..]), done, after, left, outcome);
  }

  /** Rolling one transaction forward either ends the whole recovery or leaves the recovery of the later ones. */
  lemma RollForwardStep(d: Disk, fuel: nat, written: seq<Write>, here: Disk, r: Record, later: seq<Record>,
                        done: seq<Id>, after: Disk, left: nat, outcome: Outcome)
    requires r.Prepared? && forall x :: x in later ==> x.Prepared?
    requires |written| <= fuel && here == ApplyAll(d, written)
    requires Performs(here, fuel - |written|, TransactionPlan(here, r), after, left, outcome)
    ensures var all := Preceded(written, RollForward(here, [r] + later, done));
            if outcome.Returned? then
              var written' := written + TransactionPlan(here, r).writes;
              && |written'| <= fuel && left == fuel - |written'| && after == ApplyAll(d, written')
              && all == Preceded(written', RollForward(after, later, done + [r.id]))
            else Performs(d, fuel, all, after, left, outcome)
  {
    var first := TransactionPlan(here, r);
    assert ([r] + later)[1..] == later;
    if first.outcome.Raised? {
      PerformsAfter(d, fuel, written, here, first, after, left, outcome);
    } else {
      var rest := RollForward(ApplyAll(here, first.writes), later, done + [r.id]);
      assert RollForward(here, [r] + later, done) == Preceded(first.writes, rest);
      if outcome.Crashed? {
        PerformsPrefix(here, fuel - |written|, first, rest, after, left);
        PerformsAfter(d, fuel, written, here, Preceded(first.writes, rest), after, left, outcome);
      } else {
        ApplyAllConcat(d, written, first.writes);
        assert written + (first.writes + rest.writes) == written + first.writes + rest.writes;
      }
    }
  }

  ghost function Preceded(writes: seq<Write>, plan: Plan): Plan {
    Plan(writes + plan.writes, plan.outcome)
  }

  /** Performing `rest` after `written` performs `written` followed by `rest`. */
  lemma PerformsAfter(d: Disk, fuel: nat, written: seq<Write>, here: Disk, rest: Plan, after: Disk, left: nat,
                      outcome: Outcome)
    requires |written| <= fuel && here == ApplyAll(d, written)
    requires Performs(here, fuel - |written|, rest, after, left, outcome)
    ensures Performs(d, fuel, Preceded(written, rest), after, left, outcome)
  {
    if fuel - |written| < |rest.writes| {
      assert (written + rest.writes)[..fuel] == written + rest.writes[..fuel - |written|];
      ApplyAllConcat(d, written, rest.writes[..fuel - |written|]);
    } else {
      ApplyAllConcat(d, written, rest.writes);
    }
  }

  /** A crash inside `first` is a crash inside `first` followed by `rest`. */
  lemma PerformsPrefix(d: Disk, fuel: nat, first: Plan, rest: Plan, after: Disk, left: nat)
    requires first.outcome != Crashed
    requires Performs(d, fuel, first, after, left, Crashed)
    ensures Performs(d, fuel, Preceded(first.writes, rest), after, left, Crashed)
  {
    assert (first.writes + rest.writes)[..fuel] == first.writes[..fuel];
  }

  /** After the first `i` targets are staged, staging one more is staging `i + 1`, or dying in the midst of all. */
  lemma StagesNext(d: Disk, fuel: nat, live: map<Uri, Content>, id: Id, targets: map<Uri, Content>, uris: seq<Uri>,
                   i: nat, here: Disk, left: nat, after: Disk, left': nat, outcome: Outcome)
    requires (forall uri :: uri in uris ==> uri in targets) && i < |uris|
    requires Performs(d, fuel, Plan(SnapshotWrites(live, id, targets, uris[..i]), Returned([])), here, left, Returned([]))
    requires Performs(here, left, Plan([WriteSnapshot(id, BeforeFile(i), Read(live, uris[i])),
                                        WriteSnapshot(id, AfterFile(i), targets[uris[i]])], Returned([])),
                      after, left', outcome)
    requires outcome == Returned([]) || outcome == Crashed
    ensures outcome.Returned? ==>
              Performs(d, fuel, Plan(SnapshotWrites(live, id, targets, uris[..i + 1]), Returned([])), after, left', outcome)
    ensures outcome.Crashed? ==>
              Performs(d, fuel, Plan(SnapshotWrites(live, id, targets, uris), Returned([])), after, left', outcome)
  {
    var pair := Plan([WriteSnapshot(id, BeforeFile(i), Read(live, uris[i])),
                      WriteSnapshot(id, AfterFile(i), targets[uris[i]])], Returned([]));
    var written, longer := SnapshotWrites(live, id, targets, uris[..i]), SnapshotWrites(live, id, targets, uris[..i + 1]);
    assert uris[..i + 1][..i] == uris[..i];
    assert longer == written + pair.writes;
    PerformsAfter(d, fuel, written, here, pair, after, left', outcome);
    if outcome.Crashed? {
      SnapshotWritesPrefix(live, id, targets, uris, i + 1);
      CrashesWithin(d, fuel, longer, SnapshotWrites(live, id, targets, uris), after, left');
    }
  }

  /** Dying within the first writes is dying within all of them. */
  lemma CrashesWithin(d: Disk, fuel: nat, first: seq<Write>, all: seq<Write>, after: Disk, left: nat)
    requires first <= all && Performs(d, fuel, Plan(first, Returned([])), after, left, Crashed)
    ensures Performs(d, fuel, Plan(all, Returned([])), after, left, Crashed)
  {
    assert first == all[..|first|] && all[..fuel] == first[..fuel];
  }

  lemma {:induction false} ReplaceWritesPrefix(d: Disk, id: Id, targets: seq<Target>, n: nat)
    requires n <= |targets|
    ensures ReplaceWrites(d, id, targets[..n]) <= ReplaceWrites(d, id, targets)
  {
    if n == |targets| {
      assert targets[..n] == targets;
    } else {
      assert targets[..|targets| - 1][..n] == targets[..n];
      ReplaceWritesPrefix(d, id, targets[..|targets| - 1], n);
    }
  }

  lemma {:induction false} PreconditionKeys(ps: seq<Precondition>)
    ensures PreconditionMap(ps).Keys == set p | p in ps :: p.path
  {
    if ps != [] {
      var front, last := ps[..|ps| - 1], ps[|ps| - 1];
      PreconditionKeys(front);
      assert ps == front + [last];
    }
  }

  lemma PreconditionsSnoc(ps: seq<Precondition>, p: Precondition)
    requires DistinctPreconditions(ps)
    ensures DistinctPreconditions(ps + [p]) <==> p.path !in PreconditionMap(ps)
    ensures PreconditionMap(ps + [p]) == PreconditionMap(ps)[p.path := p.sha256]
  {
    PreconditionKeys(ps);
    DistinctSnoc(ps, p);
    assert (ps + [p])[..|ps|] == ps;
  }

  lemma DistinctSnoc(ps: seq<Precondition>, p: Precondition)
    requires DistinctPreconditions(ps)
    ensures DistinctPreconditions(ps + [p]) <==> p.path !in (set x | x in ps :: x.path)
  {
    var all := ps + [p];
    if p.path in (set x | x in ps :: x.path) {
      var x :| x in ps && x.path == p.path;
      var i :| 0 <= i < |ps| && ps[i] == x;
      assert all[i].path == all[|ps|].path;
    } else {
      assert forall i :: 0 <= i < |ps| ==> ps[i] in ps && all[i] == ps[i];
    }
  }

  lemma DistinctPreconditionsPrefix(ps: seq<Precondition>, n: nat)
    requires n <= |ps| && !DistinctPreconditions(ps[..n])
    ensures !DistinctPreconditions(ps)
  {
    var i, j :| 0 <= i < j < n && ps[..n][i].path == ps[..n][j].path;
    assert ps[i].path == ps[j].path;
  }

  lemma TrustedTargetsSnoc(bundles: Bundles, id: Id, targets: seq<Target>, t: Target)
    ensures TrustedTargets(bundles, id, targets + [t])
         == TrustedTargets(bundles, id, targets) + if CarriesId(bundles, id, t) then [t] else []
    ensures Paths(targets + [t]) == Paths(targets) + {t.path}
  {
    assert (targets + [t])[..|targets|] == targets;
  }

  lemma SnapshotsValidSnoc(bundles: Bundles, id: Id, targets: seq<Target>, t: Target)
    ensures SnapshotsValid(bundles, id, targets + [t]) <==>
              && SnapshotsValid(bundles, id, targets) && t.path !in Paths(targets)
              && SnapshotMatches(bundles, id, t.beforeSnapshot, t.before)
              && SnapshotMatches(bundles, id, t.afterSnapshot, t.after)
  {
    var all := targets + [t];
    assert forall i :: 0 <= i < |targets| ==> all[i] == targets[i];
    assert all[|targets|] == t;
    if SnapshotsValid(bundles, id, all) {
      forall x | x in targets ensures x in all && x.path != t.path {
        var i :| 0 <= i < |targets| && targets[i] == x;
        assert all[i] == x;
      }
    }
  }

  lemma SnapshotsValidPrefix(bundles: Bundles, id: Id, targets: seq<Target>, n: nat)
    requires n <= |targets|
    ensures SnapshotsValid(bundles, id, targets) ==> SnapshotsValid(bundles, id, targets[..n])
  {
  }

  /** A prefix the validation loop rejects stays rejected. */
  lemma {:induction false} RejectedStays(bundles: Bundles, records: seq<Record>, n: nat)
    requires n <= |records| && ValidateLedger(bundles, records[..n]).None?
    ensures ValidateLedger(bundles, records).None?
  {
    if n == |records| {
      assert records[..n] == records;
    } else {
      assert records[..|records| - 1][..n] == records[..n];
      RejectedStays(bundles, records[..|records| - 1], n);
    }
  }
}
