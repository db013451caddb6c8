/** The runner itself, and what any sequence of its calls keeps. */
module ExperimentRunner {
  import opened Prelude
  import opened Experiment

  lemma RunIdsDiffer(m: Manifest)
    requires DistinctCases(m)
    ensures forall i, j :: 0 <= i < j < |m.cases| ==> RunIdOf(m, i) != RunIdOf(m, j)
  {
  }

  lemma {:induction false} NotYetBegun(m: Manifest, n: nat, k: nat)
    requires DistinctCases(m) && n <= k < |m.cases|
    ensures RunIdOf(m, k) !in RunIds(m, n)
  {
    if n > 0 {
      NotYetBegun(m, n - 1, k);
      RunIdsDiffer(m);
    }
  }

  /** The records of the ledger, all of them verified. */
  function Records(m: Manifest, d: RunDir, n: nat): (r: seq<Record>)
    requires n <= |d.ledger| <= |m.cases|
    requires forall k :: 0 <= k < n ==> Recorded(m, d, k)
    ensures |r| == n
    ensures forall k :: 0 <= k < n ==> VerifiedResult(m, d, k) == Some(r[k])
  {
    if n == 0 then [] else
      assert Recorded(m, d, n - 1);
      Records(m, d, n - 1) + [VerifiedResult(m, d, n - 1).value]
  }

  lemma {:induction false} LedgerVerifies(m: Manifest, d: RunDir, n: nat)
    requires n <= |d.ledger| <= |m.cases|
    requires forall k :: 0 <= k < n ==> Recorded(m, d, k)
    ensures VerifiedLedger(m, d, n) == Some(Records(m, d, n))
  {
    if n > 0 {
      LedgerVerifies(m, d, n - 1);
      assert Recorded(m, d, n - 1);
    }
  }

  /** The checkpoint of a directory is the function of its ledger. */
  predicate CheckpointCurrent(m: Manifest, d: RunDir)
    requires Invariant(m, d)
  {
    d.checkpoint == Some(CheckpointOf(m, d.ledger, Records(m, d, |d.ledger|)))
  }

  // ---------- single operations that keep the invariant ----------

  lemma CheckpointKeeps(m: Manifest, d: RunDir, c: Checkpoint)
    requires Invariant(m, d) && d.manifest == Some(m)
    ensures Invariant(m, d.(checkpoint := Some(c)))
  {
    var d' := d.(checkpoint := Some(c));
    forall k | 0 <= k < |d.ledger| ensures Recorded(m, d', k) {
      assert Recorded(m, d, k);
    }
  }

  /** Writing into the directory of the case after the recorded ones leaves the recorded ones alone. */
  lemma RecordedStays(m: Manifest, d: RunDir, d': RunDir, n: nat)
    requires DistinctCases(m) && n == |d.ledger| && n < |m.cases| && d'.ledger == d.ledger
    requires forall run :: run != RunIdOf(m, n) ==> Dir(d', run) == Dir(d, run)
    requires forall k :: 0 <= k < n ==> Recorded(m, d, k)
    ensures forall k :: 0 <= k < n ==> Recorded(m, d', k)
  {
    RunIdsDiffer(m);
    forall k | 0 <= k < n ensures Recorded(m, d', k) {
      assert Recorded(m, d, k);
    }
  }

  lemma AppendKeeps(m: Manifest, d: RunDir)
    requires DistinctCases(m) && Invariant(m, d) && d.casesRoot && |d.ledger| < |m.cases|
    requires Begun(m, d) && VerifiedResult(m, d, |d.ledger|).Some? && d.invoked == m.cases[..|d.ledger| + 1]
    ensures var r := VerifiedResult(m, d, |d.ledger|).value;
            var d' := Apply(d, AppendEntry(EntryFor(|d.ledger| + 1, r)));
            Invariant(m, d') && !Begun(m, d')
  {
    var n := |d.ledger|;
    var r := VerifiedResult(m, d, n).value;
    var d' := Apply(d, AppendEntry(EntryFor(n + 1, r)));
    forall k | 0 <= k < n + 1 ensures Recorded(m, d', k) {
      if k < n { assert Recorded(m, d, k); }
    }
    if n + 1 < |m.cases| {
      NotYetBegun(m, n + 1, n + 1);
    }
  }

  class ExperimentRunner {
    var dir: RunDir
    /** Storage operations and adapter invocations left before the process dies; any value is possible. */
    var fuel: nat

    constructor (fuel: nat)
      ensures dir == ABSENT && this.fuel == fuel
    {
      dir, this.fuel := ABSENT, fuel;
    }

    method Perform(w: Write) returns (alive: bool)
      modifies this
      ensures alive == (old(fuel) > 0)
      ensures alive ==> dir == Apply(old(dir), w) && fuel == old(fuel) - 1
      ensures !alive ==> dir == old(dir) && fuel == 0
    {
      alive := fuel > 0;
      if alive {
        fuel := fuel - 1;
        dir := Apply(dir, w);
      }
    }

    /** `_repair_checkpoint`. */
    method RepairCheckpoint(m: Manifest, records: seq<Record>) returns (alive: bool)
      requires Invariant(m, dir) && dir.manifest == Some(m) && records == Records(m, dir, |dir.ledger|)
      modifies this
      ensures Invariant(m, dir) && dir == old(dir).(checkpoint := dir.checkpoint)
      ensures alive ==> CheckpointCurrent(m, dir)
      ensures !alive ==> fuel == 0
    {
      var expected := CheckpointOf(m, dir.ledger, records);
      alive := true;
      if dir.checkpoint != Some(expected) {
        CheckpointKeeps(m, dir, expected);
        alive := Perform(WriteCheckpoint(expected));
        SameRecords(m, old(dir), dir);
      }
    }

    /** `_execute_case` on the case after the recorded ones, whose directory has just been made. */
    method ExecuteCase(m: Manifest, env: Env) returns (record: Option<Record>)
      requires DistinctCases(m) && Invariant(m, dir) && dir.casesRoot && Begun(m, dir)
      requires Dir(dir, RunIdOf(m, |dir.ledger|)) == CaseDir(None, None, None)
      requires dir.invoked == m.cases[..|dir.ledger|]
      modifies this
      ensures Invariant(m, dir)
      ensures dir == old(dir).(cases := dir.cases, invoked := dir.invoked) && old(dir.invoked) <= dir.invoked
      ensures KeepsResults(old(dir), dir)
      ensures record.None? ==> fuel == 0
      ensures record.Some? ==>
                && VerifiedResult(m, dir, |dir.ledger|) == record
                && var n, b := |dir.ledger|, env.adapter(m.cases[|dir.ledger|]);
                && record.value == RecordOf(m, m.cases[n], b)
                && Dir(dir, RunIdOf(m, n)) == CaseDir(Some(b.stdout), Some(b.stderr), record)
                && dir.invoked == m.cases[..n + 1]
    {
      var n := |dir.ledger|;
      var plan, run := m.cases[n], RunIdOf(m, n);
      var behaviour := env.adapter(plan);
      ghost var d0 := dir;
      assert m.cases[..n + 1] == m.cases[..n] + [plan];
      var alive := Perform(Invoke(plan));
      if !alive { return None; }
      StartedKeeps(m, d0, dir, n);
      alive := Perform(WriteStdout(run, behaviour.stdout));
      if !alive { return None; }
      StartedKeeps(m, d0, dir, n);
      alive := Perform(WriteStderr(run, behaviour.stderr));
      if !alive { return None; }
      StartedKeeps(m, d0, dir, n);
      var result := RecordOf(m, plan, behaviour);
      alive := Perform(WriteResult(run, result));
      if !alive { return None; }
      StartedKeeps(m, d0, dir, n);
      record := VerifiedResult(m, dir, n);
    }

    /** `_read_and_verify_ledger`. */
    method ReadLedger(m: Manifest) returns (records: Option<seq<Record>>)
      ensures records == VerifiedLedger(m, dir, |dir.ledger|)
    {
      var read: seq<Record> := [];
      for i := 0 to |dir.ledger|
        invariant VerifiedLedger(m, dir, i) == Some(read)
      {
        var r := if i >= |m.cases| then None else VerifiedResult(m, dir, i);
        if r.None? || dir.ledger[i] != EntryFor(i + 1, r.value) {
          UnverifiedStays(m, dir, i + 1, |dir.ledger|);
          return None;
        }
        read := read + [r.value];
      }
      records := Some(read);
    }

    /** The opening of `run`: make the run directory or check it is this run's. */
    method Open(m: Manifest, resume: bool) returns (outcome: Option<Outcome>)
      requires Invariant(m, dir)
      modifies this
      ensures Invariant(m, dir)
      ensures dir == old(dir).(present := dir.present, manifest := dir.manifest, casesRoot := dir.casesRoot)
      ensures outcome.None? ==> dir.present && dir.manifest == Some(m) && dir.casesRoot
      ensures outcome.None? ==> (old(dir.present) ==> resume && old(dir.manifest) == Some(m))
      ensures outcome.Some? ==> (outcome.value.Crashed? && fuel == 0)
                                || (outcome.value.Raised? && old(dir.present) && !(resume && old(dir.manifest) == Some(m)))
    {
      if dir.present {
        if !resume {
          return Some(Raised(AlreadyExists));
        }
        if dir.manifest != Some(m) {
          return Some(Raised(ManifestUnavailable));
        }
      } else {
        var alive := Perform(MakeRoot);
        if !alive { return Some(Crashed); }
        alive := Perform(WriteManifest(m));
        if !alive { return Some(Crashed); }
      }
      if !dir.casesRoot {
        var alive := Perform(MakeCasesRoot);
        if !alive { return Some(Crashed); }
        SameRecords(m, old(dir), dir);
      }
      outcome := None;
    }

    /** The result of the case after the recorded ones: recovered if its directory is there, executed otherwise. */
    method ObtainResult(m: Manifest, env: Env) returns (outcome: CaseOutcome)
      requires DistinctCases(m) && Invariant(m, dir) && dir.casesRoot && |dir.ledger| < |m.cases|
      modifies this
      ensures Invariant(m, dir)
      ensures dir == old(dir).(cases := dir.cases, invoked := dir.invoked) && old(dir.invoked) <= dir.invoked
      ensures KeepsResults(old(dir), dir)
      ensures outcome.Died? ==> fuel == 0
      ensures outcome.Failed? <==> !Recoverable(m, old(dir))
      ensures outcome.Done? ==>
                var n := |dir.ledger|;
                && outcome.recovered == Begun(m, old(dir))
                && Begun(m, dir) && VerifiedResult(m, dir, n) == Some(outcome.record)
                && dir.invoked == m.cases[..n + 1]
                && outcome.record.execution.termination == TerminationOf(m, env, old(dir), n)
                && Obtained(m, env, old(dir), dir, n)
    {
      var n := |dir.ledger|;
      var run := RunIdOf(m, n);
      if run in dir.cases {
        if dir.cases[run].result.None? {
          return Failed(IncompleteCase);
        }
        return Done(true, VerifiedResult(m, dir, n).value);
      }
      ghost var d0 := dir;
      var alive := Perform(MakeCase(run));
      if !alive { return Died; }
      RecordedStays(m, d0, dir, n);
      var record := ExecuteCase(m, env);
      outcome := if record.None? then Died else Done(false, record.value);
    }

    /** List the obtained result in the ledger and bring the checkpoint up to date. */
    method RecordResult(m: Manifest, ghost records: seq<Record>, shown: seq<Record>, record: Record) returns (alive: bool)
      requires DistinctCases(m) && Invariant(m, dir) && dir.manifest == Some(m) && dir.casesRoot
      requires Begun(m, dir) && VerifiedResult(m, dir, |dir.ledger|) == Some(record)
      requires dir.invoked == m.cases[..|dir.ledger| + 1]
      requires records == Records(m, dir, |dir.ledger|) && shown == records + [record]
      modifies this
      ensures Invariant(m, dir)
      ensures dir == old(dir).(ledger := dir.ledger, checkpoint := dir.checkpoint) && old(dir.ledger) <= dir.ledger
      ensures !alive ==> fuel == 0
      ensures alive ==> |dir.ledger| == |shown| && !Begun(m, dir) && Records(m, dir, |shown|) == shown
    {
      var n := |dir.ledger|;
      ghost var d0 := dir;
      AppendKeeps(m, dir);
      alive := Perform(AppendEntry(EntryFor(n + 1, record)));
      if !alive { return; }
      RecordsAppend(m, d0, d0, dir, n);
      ghost var d1 := dir;
      alive := RepairCheckpoint(m, shown);
      SameRecords(m, d1, dir);
    }

    /** The body of `run`'s loop. */
    method RunCase(m: Manifest, env: Env, records: seq<Record>) returns (outcome: CaseOutcome)
      requires DistinctCases(m) && Invariant(m, dir) && dir.manifest == Some(m) && dir.casesRoot
      requires |dir.ledger| < |m.cases| && records == Records(m, dir, |dir.ledger|)
      modifies this
      ensures Invariant(m, dir) && dir.manifest == Some(m) && dir.casesRoot && dir.present == old(dir.present)
      ensures Extends(old(dir), dir)
      ensures outcome.Died? ==> fuel == 0
      ensures outcome.Failed? ==> !Completes(m, env, old(dir))
      ensures outcome.Done? ==>
                && |dir.ledger| == |records| + 1 && !Begun(m, dir)
                && Records(m, dir, |dir.ledger|) == records + [outcome.record]
                && outcome.recovered == Begun(m, old(dir)) && Completes(m, env, old(dir))
                && Obtained(m, env, old(dir), dir, |records|)
    {
      var n := |dir.ledger|;
      if !env.inputsIntact(m.cases[n]) {
        return Failed(InputsChanged);
      }
      outcome := ObtainResult(m, env);
      if !outcome.Done? {
        return;
      }
      RecordsKept(m, old(dir), dir, n);
      var alive := RecordResult(m, records, records + [outcome.record], outcome.record);
      if !alive { return Died; }
      if outcome.record.execution.termination == INPUT_MUTATED {
        return Failed(InputMutated);
      }
    }

    /** `run`. */
    method Run(m: Manifest, resume: bool, env: Env) returns (outcome: Outcome)
      requires DistinctCases(m) && Invariant(m, dir)
      modifies this
      ensures Called(m, Call(resume, env, outcome), old(dir), dir)
      ensures outcome.Crashed? ==> fuel == 0
    {
      ghost var d0 := dir;
      var refused := Open(m, resume);
      if refused.Some? {
        return refused.value;
      }
      ghost var d1 := dir;
      OpenedSame(m, env, d0, d1);
      LedgerVerifies(m, dir, |dir.ledger|);
      var read := ReadLedger(m);
      outcome := RunCases(m, env, read.value);
      if outcome.Returned? {
        CompleteSame(m, env, d1, d0, dir, outcome.summary);
      }
    }

    /** `run` once the directory is open and the ledger is read. */
    method RunCases(m: Manifest, env: Env, read: seq<Record>) returns (outcome: Outcome)
      requires DistinctCases(m) && Invariant(m, dir) && dir.manifest == Some(m) && dir.casesRoot
      requires read == Records(m, dir, |dir.ledger|)
      modifies this
      ensures Invariant(m, dir) && Extends(old(dir), dir)
      ensures outcome.Crashed? ==> fuel == 0
      ensures !outcome.Crashed? ==> (outcome.Returned? <==> AllComplete(m, env, old(dir)))
      ensures outcome.Returned? ==> Complete(m, env, old(dir), dir, outcome.summary)
    {
      ghost var d0 := dir;
      var alive := RepairCheckpoint(m, read);
      if !alive { return Crashed; }
      ghost var d2 := dir;
      OpenedSame(m, env, d0, d2);
      SameRecords(m, d0, d2);
      RecordIdsAreCaseIds(m, d2, |d2.ledger|);
      var failed, executed, recovered := RunRemaining(m, env, read);
      if failed.Some? {
        return failed.value;
      }
      outcome := Finish(m, d2, env, RecordIds(read), executed, recovered);
      if outcome.Returned? {
        CompleteSame(m, env, d2, d0, dir, outcome.summary);
      }
    }

    /** `run`'s loop; the cases the ledger already lists are skipped. */
    method RunRemaining(m: Manifest, env: Env, read: seq<Record>)
      returns (failed: Option<Outcome>, executed: seq<string>, recovered: seq<string>)
      requires DistinctCases(m) && Invariant(m, dir) && dir.manifest == Some(m) && dir.casesRoot
      requires read == Records(m, dir, |dir.ledger|)
      modifies this
      ensures Invariant(m, dir) && Extends(old(dir), dir) && dir.manifest == Some(m)
      ensures failed.Some? ==> (failed.value.Crashed? && fuel == 0)
                               || (failed.value.Raised? && !AllComplete(m, env, old(dir)))
      ensures failed.None? ==>
                |dir.ledger| == |m.cases| && AtIndex(m, env, old(dir), dir, |m.cases|, executed, recovered)
    {
      ghost var before := dir;
      var records := read;
      failed, executed, recovered := None, [], [];
      for index := |read| to |m.cases|
        invariant Invariant(m, dir) && dir.manifest == Some(m) && dir.casesRoot && Extends(before, dir)
        invariant |dir.ledger| == index && records == Records(m, dir, index)
        invariant failed == None
        invariant AtIndex(m, env, before, dir, index, executed, recovered)
      {
        failed, records, executed, recovered := Advance(m, env, before, records, executed, recovered);
        if failed.Some? {
          return;
        }
      }
    }

    /** One round of `run`'s loop. */
    method Advance(m: Manifest, env: Env, ghost before: RunDir, records: seq<Record>, executed: seq<string>,
                   recovered: seq<string>)
      returns (failed: Option<Outcome>, records': seq<Record>, executed': seq<string>, recovered': seq<string>)
      requires DistinctCases(m) && Invariant(m, before) && Invariant(m, dir) && dir.manifest == Some(m) && dir.casesRoot
      requires |before.ledger| <= |dir.ledger| < |m.cases| && records == Records(m, dir, |dir.ledger|)
      requires AtIndex(m, env, before, dir, |dir.ledger|, executed, recovered)
      modifies this
      ensures Invariant(m, dir) && dir.manifest == Some(m) && dir.casesRoot && Extends(old(dir), dir)
      ensures failed.Some? ==> (failed.value.Crashed? && fuel == 0)
                               || (failed.value.Raised? && !AllComplete(m, env, before))
      ensures failed.None? ==>
                && |dir.ledger| == |old(dir.ledger)| + 1 && records' == Records(m, dir, |dir.ledger|)
                && AtIndex(m, env, before, dir, |dir.ledger|, executed', recovered')
    {
      failed, records', executed', recovered' := None, records, executed, recovered;
      ghost var here := dir;
      var index := |records|;
      CompletesLater(m, env, before, here, index, executed, recovered);
      var step := RunCase(m, env, records);
      if !step.Done? {
        failed := Some(if step.Failed? then Raised(step.error) else Crashed);
        return;
      }
      records' := records + [step.record];
      if step.recovered {
        recovered' := recovered + [m.cases[index].id];
      } else {
        executed' := executed + [m.cases[index].id];
      }
      NextAtIndex(m, env, before, here, dir, index, executed, recovered, executed', recovered');
    }

    /** The closing checks of `run`. */
    method Finish(m: Manifest, ghost before: RunDir, ghost env: Env, resumed: seq<string>, executed: seq<string>,
                  recovered: seq<string>)
      returns (outcome: Outcome)
      requires Invariant(m, before) && Invariant(m, dir) && dir.manifest == Some(m) && |dir.ledger| == |m.cases|
      requires resumed == CaseIds(m, 0, |before.ledger|)
      requires AtIndex(m, env, before, dir, |m.cases|, executed, recovered)
      modifies this
      ensures Invariant(m, dir) && dir == old(dir).(checkpoint := dir.checkpoint)
      ensures outcome.Returned? || (outcome.Crashed? && fuel == 0)
      ensures outcome.Returned? ==> AllComplete(m, env, before) && Complete(m, env, before, dir, outcome.summary)
    {
      if dir.cases.Keys != RunIds(m, |m.cases|) {
        assert false;
        return Raised(CasesInconsistent);
      }
      ghost var d0 := dir;
      LedgerVerifies(m, dir, |dir.ledger|);
      var read := ReadLedger(m);
      var alive := RepairCheckpoint(m, read.value);
      if !alive { return Crashed; }
      SameRecords(m, d0, dir);
      AtIndexSame(m, env, before, d0, dir, executed, recovered);
      outcome := Returned(Summary(executed, recovered, resumed, Failures(read.value)));
    }
  }

  // ---------- a whole call ----------

  /** What a returned call reports and leaves: everything recorded, each case invoked once, the checkpoint current, and
      the resumed, recovered and executed ids in order. */
  predicate Complete(m: Manifest, env: Env, before: RunDir, d: RunDir, summary: Summary)
    requires Invariant(m, d) && |before.ledger| <= |m.cases|
  {
    var n, r := |before.ledger|, RecoveredCount(m, before);
    && |d.ledger| == |m.cases| && d.invoked == m.cases && CheckpointCurrent(m, d)
    && summary.resumed == CaseIds(m, 0, n)
    && summary.recovered == CaseIds(m, n, n + r)
    && summary.executed == CaseIds(m, n + r, |m.cases|)
    && summary.failures == Failures(Records(m, d, |d.ledger|))
    && forall k :: 0 <= k < |m.cases| ==> Obtained(m, env, before, d, k)
  }

  /** The loop has obtained and recorded the cases from the first unrecorded one up to `index`. */
  predicate Progressed(m: Manifest, env: Env, before: RunDir, d: RunDir, index: nat, executed: seq<string>,
                       recovered: seq<string>)
    requires |before.ledger| < index <= |m.cases|
  {
    var n, r := |before.ledger|, RecoveredCount(m, before);
    && !Begun(m, d) && Recoverable(m, before)
    && (forall k :: n <= k < index ==> env.inputsIntact(m.cases[k]) && TerminationOf(m, env, before, k) != INPUT_MUTATED)
    && recovered == CaseIds(m, n, n + r)
    && executed == CaseIds(m, n + r, index)
    && forall k :: 0 <= k < index ==> Obtained(m, env, before, d, k)
  }

  /** The state of `run`'s loop at `index`. */
  predicate AtIndex(m: Manifest, env: Env, before: RunDir, d: RunDir, index: nat, executed: seq<string>,
                    recovered: seq<string>)
    requires |before.ledger| <= |m.cases| && index <= |m.cases|
  {
    if index <= |before.ledger| then d == before && executed == [] && recovered == []
    else Progressed(m, env, before, d, index, executed, recovered)
  }

  datatype Call = Call(resume: bool, env: Env, outcome: Outcome)

  /** What one call, interrupted or not, does to the run directory. */
  ghost predicate Called(m: Manifest, call: Call, d: RunDir, d': RunDir) {
    && Invariant(m, d) && Invariant(m, d') && Extends(d, d')
    && (!call.outcome.Crashed? ==> (call.outcome.Returned? <==> Returns(m, call.resume, call.env, d)))
    && (call.outcome.Returned? ==> Complete(m, call.env, d, d', call.outcome.summary))
  }

  lemma OpenedSame(m: Manifest, env: Env, d: RunDir, d': RunDir)
    requires d'.cases == d.cases && d'.ledger == d.ledger
    ensures Begun(m, d) <==> Begun(m, d')
    ensures Recoverable(m, d) <==> Recoverable(m, d')
    ensures AllComplete(m, env, d) <==> AllComplete(m, env, d')
  {
    forall k | 0 <= k < |m.cases| ensures TerminationOf(m, env, d, k) == TerminationOf(m, env, d', k) {
    }
  }

  lemma ObtainedSame(m: Manifest, env: Env, before: RunDir, before': RunDir, d: RunDir, d': RunDir, n: nat)
    requires before'.cases == before.cases && d'.cases == d.cases && n <= |m.cases|
    requires forall k :: 0 <= k < n ==> Obtained(m, env, before, d, k)
    ensures forall k :: 0 <= k < n ==> Obtained(m, env, before', d', k)
  {
    forall k | 0 <= k < n ensures Obtained(m, env, before', d', k) {
      assert Obtained(m, env, before, d, k);
    }
  }

  /** The recorded cases of a directory are obtained in it. */
  lemma RecordedObtained(m: Manifest, env: Env, d: RunDir)
    requires Invariant(m, d)
    ensures forall k :: 0 <= k < |d.ledger| ==> Obtained(m, env, d, d, k) && Dir(d, RunIdOf(m, k)).result.Some?
  {
    forall k | 0 <= k < |d.ledger| ensures Obtained(m, env, d, d, k) && Dir(d, RunIdOf(m, k)).result.Some? {
      assert Recorded(m, d, k);
    }
  }

  /** Recording one more case keeps the others as they were obtained. */
  lemma ObtainedNext(m: Manifest, env: Env, before: RunDir, d: RunDir, d': RunDir, index: nat)
    requires DistinctCases(m) && Invariant(m, before) && Invariant(m, d) && index == |d.ledger| < |m.cases|
    requires |before.ledger| <= index && KeepsResults(d, d') && Obtained(m, env, d, d', index)
    requires index > |before.ledger| ==> !Begun(m, d) && forall k :: 0 <= k < index ==> Obtained(m, env, before, d, k)
    requires index == |before.ledger| ==> d == before
    ensures forall k :: 0 <= k < index + 1 ==> Obtained(m, env, before, d', k)
  {
    RecordedObtained(m, env, d);
    forall k | 0 <= k < index ensures Obtained(m, env, before, d', k) {
      assert Obtained(m, env, before, d, k);
    }
    if index > |before.ledger| {
      NotYetBegun(m, |before.ledger|, index);
      RunIdsDiffer(m);
      assert RunIdOf(m, index) !in before.cases;
    }
  }

  lemma CompleteSame(m: Manifest, env: Env, before: RunDir, before': RunDir, d: RunDir, summary: Summary)
    requires before'.cases == before.cases && before'.ledger == before.ledger && |before.ledger| <= |m.cases|
    requires Invariant(m, d) && Complete(m, env, before, d, summary)
    ensures Complete(m, env, before', d, summary)
  {
    ObtainedSame(m, env, before, before', d, d, |m.cases|);
  }

  lemma AtIndexSame(m: Manifest, env: Env, before: RunDir, d: RunDir, d': RunDir, executed: seq<string>,
                    recovered: seq<string>)
    requires Invariant(m, before) && Invariant(m, d) && Invariant(m, d') && |d.ledger| == |m.cases|
    requires d' == d.(checkpoint := d'.checkpoint) && CheckpointCurrent(m, d')
    requires AtIndex(m, env, before, d, |m.cases|, executed, recovered)
    ensures AllComplete(m, env, before)
    ensures Complete(m, env, before, d', Summary(executed, recovered, CaseIds(m, 0, |before.ledger|),
                                                 Failures(Records(m, d', |d'.ledger|))))
  {
    if |before.ledger| == |m.cases| {
      RecordedObtained(m, env, d');
      EndIsComplete(m, env, d', d', executed, recovered, Records(m, d', |d'.ledger|));
      OpenedSame(m, env, before, d');
      CompleteSame(m, env, d', before, d', Summary(executed, recovered, CaseIds(m, 0, |before.ledger|),
                                              Failures(Records(m, d', |d'.ledger|))));
    } else {
      ObtainedSame(m, env, before, before, d, d', |m.cases|);
      EndIsComplete(m, env, before, d', executed, recovered, Records(m, d', |d'.ledger|));
    }
  }

  /** At the end of the loop every case has completed, and the summary says which way. */
  lemma EndIsComplete(m: Manifest, env: Env, before: RunDir, d: RunDir, executed: seq<string>, recovered: seq<string>,
                      records: seq<Record>)
    requires Invariant(m, before) && Invariant(m, d) && |d.ledger| == |m.cases|
    requires AtIndex(m, env, before, d, |m.cases|, executed, recovered)
    requires CheckpointCurrent(m, d) && records == Records(m, d, |d.ledger|)
    ensures AllComplete(m, env, before)
    ensures Complete(m, env, before, d, Summary(executed, recovered, CaseIds(m, 0, |before.ledger|), Failures(records)))
  {
    assert m.cases[..|m.cases|] == m.cases;
    AllObtained(m, env, before, d, executed, recovered);
  }

  lemma AllObtained(m: Manifest, env: Env, before: RunDir, d: RunDir, executed: seq<string>, recovered: seq<string>)
    requires Invariant(m, before) && Invariant(m, d) && |d.ledger| == |m.cases|
    requires AtIndex(m, env, before, d, |m.cases|, executed, recovered)
    ensures forall k :: 0 <= k < |m.cases| ==> Obtained(m, env, before, d, k)
  {
    if |before.ledger| == |m.cases| {
      RecordedObtained(m, env, d);
    }
  }

  /** Whether the next case completes depends only on the directory the call opened. */
  lemma CompletesLater(m: Manifest, env: Env, before: RunDir, d: RunDir, index: nat, executed: seq<string>,
                       recovered: seq<string>)
    requires DistinctCases(m) && Invariant(m, before) && Invariant(m, d) && index == |d.ledger| < |m.cases|
    requires |before.ledger| <= index
    requires AtIndex(m, env, before, d, index, executed, recovered)
    ensures Completes(m, env, d) <==>
              && env.inputsIntact(m.cases[index]) && TerminationOf(m, env, before, index) != INPUT_MUTATED
              && Recoverable(m, before)
  {
    if index > |before.ledger| {
      NotYetBegun(m, |before.ledger|, index);
      RunIdsDiffer(m);
      assert RunIdOf(m, index) !in before.cases;
    }
  }

  lemma ProgressedNext(m: Manifest, env: Env, before: RunDir, d: RunDir, d': RunDir, index: nat, executed: seq<string>,
                       recovered: seq<string>, executed': seq<string>, recovered': seq<string>)
    requires index == |d.ledger| < |m.cases| && |before.ledger| <= index
    requires AtIndex(m, env, before, d, index, executed, recovered)
    requires !Begun(m, d') && Recoverable(m, before)
    requires env.inputsIntact(m.cases[index]) && TerminationOf(m, env, before, index) != INPUT_MUTATED
    requires recovered' == if Begun(m, d) then recovered + [m.cases[index].id] else recovered
    requires executed' == if Begun(m, d) then executed else executed + [m.cases[index].id]
    requires forall k :: 0 <= k < index + 1 ==> Obtained(m, env, before, d', k)
    ensures AtIndex(m, env, before, d', index + 1, executed', recovered')
  {
  }

  lemma NextAtIndex(m: Manifest, env: Env, before: RunDir, d: RunDir, d': RunDir, index: nat, executed: seq<string>,
                    recovered: seq<string>, executed': seq<string>, recovered': seq<string>)
    requires DistinctCases(m) && Invariant(m, before) && Invariant(m, d)
    requires index == |d.ledger| < |m.cases| && |before.ledger| <= index
    requires AtIndex(m, env, before, d, index, executed, recovered)
    requires !Begun(m, d') && Completes(m, env, d) && KeepsResults(d, d') && Obtained(m, env, d, d', index)
    requires recovered' == if Begun(m, d) then recovered + [m.cases[index].id] else recovered
    requires executed' == if Begun(m, d) then executed else executed + [m.cases[index].id]
    ensures AtIndex(m, env, before, d', index + 1, executed', recovered')
  {
    CompletesLater(m, env, before, d, index, executed, recovered);
    ObtainedNext(m, env, before, d, d', index);
    ProgressedNext(m, env, before, d, d', index, executed, recovered, executed', recovered');
  }

  lemma {:induction false} RecordIdsAreCaseIds(m: Manifest, d: RunDir, n: nat)
    requires n <= |d.ledger| <= |m.cases| && forall k :: 0 <= k < n ==> Recorded(m, d, k)
    ensures RecordIds(Records(m, d, n)) == CaseIds(m, 0, n)
  {
    if n > 0 {
      RecordIdsAreCaseIds(m, d, n - 1);
      assert Recorded(m, d, n - 1);
      assert RecordIds(Records(m, d, n)) == RecordIds(Records(m, d, n - 1)) + [m.cases[n - 1].id];
    }
  }

  datatype CaseOutcome = Done(recovered: bool, record: Record) | Failed(error: Error) | Died

  lemma {:induction false} UnverifiedStays(m: Manifest, d: RunDir, i: nat, n: nat)
    requires i <= n <= |d.ledger| && VerifiedLedger(m, d, i).None?
    ensures VerifiedLedger(m, d, n).None?
    decreases n - i
  {
    if i < n {
      UnverifiedStays(m, d, i + 1, n);
    }
  }

  lemma {:induction false} RecordsKept(m: Manifest, d: RunDir, d': RunDir, n: nat)
    requires n <= |d.ledger| <= |m.cases| && d.ledger <= d'.ledger && |d'.ledger| <= |m.cases|
    requires forall k :: 0 <= k < n ==> Recorded(m, d, k) && Recorded(m, d', k)
    ensures Records(m, d', n) == Records(m, d, n)
  {
    if n > 0 {
      RecordsKept(m, d, d', n - 1);
      assert Recorded(m, d, n - 1) && Recorded(m, d', n - 1);
    }
  }

  lemma RecordsAppend(m: Manifest, d: RunDir, d1: RunDir, d2: RunDir, n: nat)
    requires Invariant(m, d) && Invariant(m, d1) && Invariant(m, d2)
    requires n == |d.ledger| < |m.cases| && d1.ledger == d.ledger
    requires VerifiedResult(m, d1, n).Some? && d2 == d1.(ledger := d.ledger + [EntryFor(n + 1, VerifiedResult(m, d1, n).value)])
    ensures Records(m, d2, n + 1) == Records(m, d, n) + [VerifiedResult(m, d1, n).value]
  {
    RecordsKept(m, d, d2, n);
    assert Recorded(m, d2, n);
  }

  /** While the case after the recorded ones runs, only its own directory and the invocation log change. */
  lemma StartedKeeps(m: Manifest, d: RunDir, d': RunDir, n: nat)
    requires DistinctCases(m) && Invariant(m, d) && d.casesRoot && n == |d.ledger| && Begun(m, d)
    requires d' == d.(cases := d'.cases, invoked := m.cases[..n + 1])
    requires d'.cases.Keys == d.cases.Keys && forall run :: run != RunIdOf(m, n) ==> Dir(d', run) == Dir(d, run)
    requires Dir(d', RunIdOf(m, n)).result.Some? ==> VerifiedResult(m, d', n).Some?
    ensures Invariant(m, d')
  {
    RecordedStays(m, d, d', n);
  }

  lemma {:induction false} SameRecordsUpTo(m: Manifest, d: RunDir, d': RunDir, n: nat)
    requires Invariant(m, d) && d'.ledger == d.ledger && d'.cases == d.cases && n <= |d.ledger|
    ensures forall k :: 0 <= k < |d.ledger| ==> Recorded(m, d', k)
    ensures Records(m, d', n) == Records(m, d, n)
  {
    forall k | 0 <= k < |d.ledger| ensures Recorded(m, d', k) {
      assert Recorded(m, d, k);
    }
    if n > 0 {
      SameRecordsUpTo(m, d, d', n - 1);
    }
  }

  lemma SameRecords(m: Manifest, d: RunDir, d': RunDir)
    requires Invariant(m, d) && d'.ledger == d.ledger && d'.cases == d.cases
    ensures forall k :: 0 <= k < |d.ledger| ==> Recorded(m, d', k)
    ensures Records(m, d', |d.ledger|) == Records(m, d, |d.ledger|)
  {
    SameRecordsUpTo(m, d, d', |d.ledger|);
  }

  // ---------- any sequence of calls ----------

  /** `ds[i]` is the run directory before call `i`. */
  ghost predicate History(m: Manifest, calls: seq<Call>, ds: seq<RunDir>) {
    && |ds| == |calls| + 1 && ds[0] == ABSENT
    && forall i :: 0 <= i < |calls| ==> Called(m, calls[i], ds[i], ds[i + 1])
  }

  lemma {:induction false} HistoryExtends(m: Manifest, calls: seq<Call>, ds: seq<RunDir>, i: nat, j: nat)
    requires History(m, calls, ds) && i <= j < |ds|
    ensures Extends(ds[i], ds[j])
    decreases j - i
  {
    if i < j {
      HistoryExtends(m, calls, ds, i, j - 1);
      assert Called(m, calls[j - 1], ds[j - 1], ds[j - 1 + 1]);
    }
  }

  lemma {:induction false} CaseIdsConcat(m: Manifest, a: nat, b: nat, c: nat)
    requires a <= b <= c <= |m.cases|
    ensures CaseIds(m, a, b) + CaseIds(m, b, c) == CaseIds(m, a, c)
  {
    if b < c {
      CaseIdsConcat(m, a, b, c - 1);
      assert CaseIds(m, a, b) + (CaseIds(m, b, c - 1) + [m.cases[c - 1].id])
          == CaseIds(m, a, b) + CaseIds(m, b, c - 1) + [m.cases[c - 1].id];
    } else {
      assert CaseIds(m, a, b) + [] == CaseIds(m, a, b);
    }
  }

  /** The ledger lists the first cases in order, no case was given to the adapter twice, and at most one case directory
      has no ledger entry. */
  ghost predicate Accounted(m: Manifest, d: RunDir) {
    && |d.ledger| <= |m.cases|
    && (forall k :: 0 <= k < |d.ledger| ==> d.ledger[k].sequence == k + 1 && d.ledger[k].run == RunIdOf(m, k))
    && (forall a, b :: 0 <= a < b < |d.invoked| ==> d.invoked[a].id != d.invoked[b].id)
    && d.invoked <= m.cases
    && exists extra: set<CaseRunId> :: |extra| <= 1 && d.cases.Keys == RunIds(m, |d.ledger|) + extra
  }

  lemma InvariantAccounts(m: Manifest, d: RunDir)
    requires DistinctCases(m) && Invariant(m, d)
    ensures Accounted(m, d)
  {
    forall k | 0 <= k < |d.ledger| ensures d.ledger[k].sequence == k + 1 && d.ledger[k].run == RunIdOf(m, k) {
      assert Recorded(m, d, k);
    }
    var extra := if Begun(m, d) then {RunIdOf(m, |d.ledger|)} else {};
    assert d.cases.Keys == RunIds(m, |d.ledger|) + extra;
  }

  /** One process that calls `run` and dies when its fuel is used up. */
  datatype Attempt = Attempt(resume: bool, env: Env, fuel: nat)

  function CallsOf(attempts: seq<Attempt>, outcomes: seq<Outcome>): seq<Call>
    requires |outcomes| <= |attempts|
  {
    seq(|outcomes|, i requires 0 <= i < |outcomes| => Call(attempts[i].resume, attempts[i].env, outcomes[i]))
  }

  /** Processes one after the other on the same run directory, from the time it did not exist. */
  method RunAttempts(m: Manifest, attempts: seq<Attempt>)
    returns (runner: ExperimentRunner, outcomes: seq<Outcome>, ghost ds: seq<RunDir>)
    requires DistinctCases(m)
    ensures fresh(runner) && |outcomes| == |attempts|
    ensures History(m, CallsOf(attempts, outcomes), ds) && runner.dir == ds[|attempts|]
    ensures forall i, j :: 0 <= i <= j < |ds| ==> Extends(ds[i], ds[j])
    ensures forall i :: 0 <= i < |ds| ==> Accounted(m, ds[i])
  {
    runner := new ExperimentRunner(0);
    outcomes := [];
    ds := [runner.dir];
    for i := 0 to |attempts|
      invariant |outcomes| == i && History(m, CallsOf(attempts, outcomes), ds)
      invariant fresh(runner) && runner.dir == ds[i] && Invariant(m, runner.dir)
    {
      ghost var calls, before := CallsOf(attempts, outcomes), runner.dir;
      runner.fuel := attempts[i].fuel;
      var outcome := runner.Run(m, attempts[i].resume, attempts[i].env);
      outcomes := outcomes + [outcome];
      HistoryNext(m, calls, ds, Call(attempts[i].resume, attempts[i].env, outcome), runner.dir);
      assert CallsOf(attempts, outcomes) == calls + [Call(attempts[i].resume, attempts[i].env, outcome)];
      ds := ds + [runner.dir];
    }
    HistoryAccounts(m, CallsOf(attempts, outcomes), ds);
  }

  lemma HistoryNext(m: Manifest, calls: seq<Call>, ds: seq<RunDir>, call: Call, d: RunDir)
    requires History(m, calls, ds) && Called(m, call, ds[|ds| - 1], d)
    ensures History(m, calls + [call], ds + [d])
  {
    var longer, more := calls + [call], ds + [d];
    forall i | 0 <= i < |longer| ensures Called(m, longer[i], more[i], more[i + 1]) {
      if i < |calls| {
        assert Called(m, calls[i], ds[i], ds[i + 1]);
      }
    }
  }

  /** Whatever calls were made and wherever they died, directories only grow and each of them accounts for its cases. */
  lemma HistoryAccounts(m: Manifest, calls: seq<Call>, ds: seq<RunDir>)
    requires DistinctCases(m) && History(m, calls, ds)
    ensures forall i, j :: 0 <= i <= j < |ds| ==> Extends(ds[i], ds[j])
    ensures forall i :: 0 <= i < |ds| ==> Accounted(m, ds[i])
  {
    forall i, j | 0 <= i <= j < |ds| ensures Extends(ds[i], ds[j]) {
      HistoryExtends(m, calls, ds, i, j);
    }
    forall i | 0 <= i < |ds| ensures Accounted(m, ds[i]) {
      if i > 0 {
        assert Called(m, calls[i - 1], ds[i - 1], ds[i - 1 + 1]);
      }
      InvariantAccounts(m, ds[i]);
    }
  }

  /** A call that returns has accounted for every case exactly once, recovering at most one. */
  lemma SummaryPartitions(m: Manifest, env: Env, before: RunDir, d: RunDir, summary: Summary)
    requires Invariant(m, before) && Invariant(m, d) && Complete(m, env, before, d, summary)
    ensures summary.resumed + summary.recovered + summary.executed == CaseIds(m, 0, |m.cases|)
    ensures |summary.recovered| <= 1
  {
    var n, r := |before.ledger|, RecoveredCount(m, before);
    CaseIdsConcat(m, 0, n, n + r);
    CaseIdsConcat(m, 0, n + r, |m.cases|);
  }
}
