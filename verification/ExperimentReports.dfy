/** What a returned call reports about its cases, said of the adapter and of the directory it found. */
module ExperimentReports {
  import opened Prelude
  import opened Experiment
  import opened ExperimentRunner

  // ---------- one execution ----------

  /** The adapter returned, on unchanged inputs, an execution `_validate_execution` accepts. */
  predicate Answered(b: Behaviour, e: Execution) {
    && !b.inputsChanged && b.execution == Some(e)
    && e.termination != INPUT_MUTATED && (e.termination == EXITED <==> e.failure.None?)
  }

  /** The adapter ran the case to its end on unchanged inputs. */
  predicate RanToEnd(b: Behaviour) {
    !b.inputsChanged && b.execution == Some(Execution(EXITED, None))
  }

  /** An accepted answer is recorded as it is; on unchanged inputs anything else is recorded as a failure of the adapter,
      and changed inputs as that. */
  lemma ExecutionRecorded(b: Behaviour)
    ensures forall e :: Answered(b, e) ==> Executed(b) == e
    ensures (forall e :: !Answered(b, e)) && !b.inputsChanged ==>
              Executed(b).termination == ADAPTER_FAILED && Executed(b).failure.Some?
    ensures b.inputsChanged ==> Executed(b).termination == INPUT_MUTATED && Executed(b).failure.Some?
    ensures Executed(b).termination == EXITED <==> RanToEnd(b)
    ensures Executed(b).failure.None? <==> RanToEnd(b)
  {
    if b.execution.Some? {
      assert Answered(b, b.execution.value)
          <==> !b.inputsChanged && ValidExecution(b.execution.value, false);
      if Answered(b, b.execution.value) && b.execution.value.failure.None? {
        assert b.execution.value == Execution(EXITED, None);
      }
    }
  }

  // ---------- what a returned call reports ----------

  /** The case failed: its directory said so before the call, or the adapter did not run it to its end. */
  predicate Failing(m: Manifest, env: Env, before: RunDir, k: nat)
    requires k < |m.cases|
  {
    var run := RunIdOf(m, k);
    if run in before.cases then before.cases[run].result.Some? && before.cases[run].result.value.execution.termination != EXITED
    else !RanToEnd(env.adapter(m.cases[k]))
  }

  /** The ids of the failing cases, in the order of the manifest. */
  function FailingIds(m: Manifest, env: Env, before: RunDir, n: nat): seq<string>
    requires n <= |m.cases|
  {
    if n == 0 then [] else
      FailingIds(m, env, before, n - 1) + if Failing(m, env, before, n - 1) then [m.cases[n - 1].id] else []
  }

  /** The record of an obtained case says whether the case failed. */
  lemma FailureRecorded(m: Manifest, env: Env, before: RunDir, d: RunDir, k: nat)
    requires k < |m.cases| && Obtained(m, env, before, d, k) && VerifiedResult(m, d, k).Some?
    ensures var r := VerifiedResult(m, d, k).value;
            r.plan.id == m.cases[k].id && (r.execution.failure.Some? <==> Failing(m, env, before, k))
  {
    ExecutionRecorded(env.adapter(m.cases[k]));
  }

  /** The records say which cases failed. */
  predicate Tell(m: Manifest, env: Env, before: RunDir, records: seq<Record>)
    requires |records| <= |m.cases|
  {
    forall k :: 0 <= k < |records| ==>
      records[k].plan.id == m.cases[k].id && (records[k].execution.failure.Some? <==> Failing(m, env, before, k))
  }

  lemma {:induction false} FailuresAre(m: Manifest, env: Env, before: RunDir, records: seq<Record>)
    requires |records| <= |m.cases| && Tell(m, env, before, records)
    ensures Failures(records) == FailingIds(m, env, before, |records|)
  {
    if records != [] {
      FailuresAre(m, env, before, records[..|records| - 1]);
    }
  }

  lemma RecordsTell(m: Manifest, env: Env, before: RunDir, d: RunDir)
    requires Invariant(m, d) && forall k :: 0 <= k < |d.ledger| ==> Obtained(m, env, before, d, k)
    ensures Tell(m, env, before, Records(m, d, |d.ledger|))
  {
    var records := Records(m, d, |d.ledger|);
    forall k | 0 <= k < |records|
      ensures records[k].plan.id == m.cases[k].id && (records[k].execution.failure.Some? <==> Failing(m, env, before, k))
    {
      assert VerifiedResult(m, d, k) == Some(records[k]);
      FailureRecorded(m, env, before, d, k);
    }
  }

  lemma {:induction false} FailingIdsAre(m: Manifest, env: Env, before: RunDir, n: nat, k: nat)
    requires DistinctCases(m) && n <= |m.cases| && k < |m.cases|
    ensures m.cases[k].id in FailingIds(m, env, before, n) <==> k < n && Failing(m, env, before, k)
  {
    if n > 0 {
      FailingIdsAre(m, env, before, n - 1, k);
    }
  }

  /** The summary of a returned call lists as failures, in order, exactly the cases it found recorded or begun with a
      failure and the executed ones whose adapter did not run to its end. */
  lemma FailuresReported(m: Manifest, env: Env, before: RunDir, d: RunDir, summary: Summary)
    requires DistinctCases(m) && Invariant(m, before) && Invariant(m, d) && Complete(m, env, before, d, summary)
    ensures summary.failures == FailingIds(m, env, before, |m.cases|)
    ensures forall k :: 0 <= k < |m.cases| ==> (m.cases[k].id in summary.failures <==> Failing(m, env, before, k))
  {
    RecordsTell(m, env, before, d);
    FailuresAre(m, env, before, Records(m, d, |d.ledger|));
    forall k | 0 <= k < |m.cases| ensures m.cases[k].id in summary.failures <==> Failing(m, env, before, k) {
      FailingIdsAre(m, env, before, |m.cases|, k);
    }
  }

  /** A case is executed exactly when the call found no directory of it; its directory then holds the output of the
      adapter and, if it answered acceptably on unchanged inputs, its answer. */
  lemma ExecutedReported(m: Manifest, env: Env, before: RunDir, d: RunDir, summary: Summary, k: nat)
    requires DistinctCases(m) && Invariant(m, before) && Invariant(m, d) && Complete(m, env, before, d, summary)
    requires k < |m.cases|
    ensures m.cases[k].id in summary.executed <==> RunIdOf(m, k) !in before.cases
    ensures m.cases[k].id in summary.executed ==>
              var b, dir := env.adapter(m.cases[k]), Dir(d, RunIdOf(m, k));
              && dir.stdout == Some(b.stdout) && dir.stderr == Some(b.stderr) && dir.result.Some?
              && (forall e :: Answered(b, e) ==> dir.result.value.execution == e)
              && (dir.result.value.execution.termination == EXITED <==> RanToEnd(b))
  {
    ExecutedAre(m, before, k);
    assert Obtained(m, env, before, d, k);
    ExecutionRecorded(env.adapter(m.cases[k]));
  }

  lemma {:induction false} CaseIdsAre(m: Manifest, a: nat, b: nat, k: nat)
    requires DistinctCases(m) && a <= b <= |m.cases| && k < |m.cases|
    ensures m.cases[k].id in CaseIds(m, a, b) <==> a <= k < b
  {
    if a < b {
      CaseIdsAre(m, a, b - 1, k);
    }
  }

  lemma ExecutedAre(m: Manifest, before: RunDir, k: nat)
    requires DistinctCases(m) && Invariant(m, before) && k < |m.cases|
    requires |before.ledger| + RecoveredCount(m, before) <= |m.cases|
    ensures m.cases[k].id in CaseIds(m, |before.ledger| + RecoveredCount(m, before), |m.cases|)
            <==> RunIdOf(m, k) !in before.cases
  {
    var n := |before.ledger|;
    CaseIdsAre(m, n + RecoveredCount(m, before), |m.cases|, k);
    RunIdsDiffer(m);
    if k < n {
      assert Recorded(m, before, k);
    } else {
      NotYetBegun(m, n, k);
    }
  }

  // ---------- what is read back ----------

  /** The record of an execution of case `k` with these outputs. */
  function Recording(m: Manifest, k: nat, e: Execution, out: string, err: string): Record
    requires k < |m.cases|
  {
    Record(m.fingerprint, m.cases[k], e, Sha256(out), Sha256(err))
  }

  /** A stored result is read back exactly if the directory holds both outputs and the record of them for this manifest
      and this case, with a failure exactly where the run did not end. */
  lemma ReadBackIff(m: Manifest, d: RunDir, k: nat, e: Execution)
    requires k < |m.cases|
    ensures VerifiedResult(m, d, k).Some? && VerifiedResult(m, d, k).value.execution == e <==>
              exists out, err ::
                && Dir(d, RunIdOf(m, k)) == CaseDir(Some(out), Some(err), Some(Recording(m, k, e, out, err)))
                && (e.termination == EXITED <==> e.failure.None?)
  {
    var dir := Dir(d, RunIdOf(m, k));
    if VerifiedResult(m, d, k).Some? && VerifiedResult(m, d, k).value.execution == e {
      var out, err := dir.stdout.value, dir.stderr.value;
      assert dir == CaseDir(Some(out), Some(err), Some(Recording(m, k, e, out, err)));
    }
  }

  /** The recorded directory of a case is untouched exactly if what it holds still fits its ledger entry. */
  lemma EntryFitsIff(m: Manifest, d: RunDir, d': RunDir, k: nat)
    requires k < |m.cases| && k < |d.ledger| && Recorded(m, d, k) && d'.ledger == d.ledger
    ensures Recorded(m, d', k) <==> Dir(d', RunIdOf(m, k)) == Dir(d, RunIdOf(m, k))
  {
    var dir, dir' := Dir(d, RunIdOf(m, k)), Dir(d', RunIdOf(m, k));
    if Recorded(m, d', k) {
      var r, r' := VerifiedResult(m, d, k).value, VerifiedResult(m, d', k).value;
      assert EntryFor(k + 1, r) == EntryFor(k + 1, r');
      assert r == r';
      assert dir.stdout == dir'.stdout && dir.stderr == dir'.stderr && dir.result == dir'.result;
    }
  }

  /** Reading a ledger back raises exactly when the directory of some recorded case is not as it was recorded. */
  lemma {:induction false} TamperedIff(m: Manifest, d: RunDir, d': RunDir, n: nat)
    requires Invariant(m, d) && d'.ledger == d.ledger && n <= |d.ledger|
    ensures VerifiedLedger(m, d', n).None? <==>
              exists k :: 0 <= k < n && Dir(d', RunIdOf(m, k)) != Dir(d, RunIdOf(m, k))
  {
    if n > 0 {
      TamperedIff(m, d, d', n - 1);
      assert Recorded(m, d, n - 1);
      EntryFitsIff(m, d, d', n - 1);
    }
  }
}
