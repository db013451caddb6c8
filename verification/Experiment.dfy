/** `ExperimentRunner.run`: an append-only, resumable batch over a run directory that a crash may interrupt between any
    two storage operations. Digests are free constructors; timestamps and provenance fields are dropped. */
module Experiment {
  import opened Prelude

  datatype Case = Case(id: string, argv: string)
  datatype Manifest = Manifest(fingerprint: string, cases: seq<Case>)

  datatype Termination = EXITED | TIMED_OUT | LAUNCH_FAILED | ADAPTER_FAILED | INPUT_MUTATED
  datatype Execution = Execution(termination: Termination, failure: Option<string>)

  datatype CaseRunId = CaseRunId(fingerprint: string, plan: Case)
  datatype Digest = Sha256(bytes: string)
  datatype Record = Record(fingerprint: string, plan: Case, execution: Execution, stdout: Digest, stderr: Digest)
  datatype ResultDigest = Sha256Of(record: Record)
  datatype Entry = Entry(sequence: nat, run: CaseRunId, result: ResultDigest, stdout: Digest, stderr: Digest)
  datatype LedgerDigest = LedgerSha256(entries: seq<Entry>)
  datatype Checkpoint = Checkpoint(fingerprint: string, ledger: LedgerDigest, count: nat, cases: seq<CaseRunId>)

  datatype CaseDir = CaseDir(stdout: Option<string>, stderr: Option<string>, result: Option<Record>)

  /** The run directory, and the adapter invocations so far. */
  datatype RunDir = RunDir(present: bool, manifest: Option<Manifest>, casesRoot: bool, cases: map<CaseRunId, CaseDir>,
                           ledger: seq<Entry>, checkpoint: Option<Checkpoint>, invoked: seq<Case>)

  const ABSENT := RunDir(false, None, false, map[], [], None, [])

  /** What the adapter does on one case: its output, its result unless it raises, and whether the inputs changed. */
  datatype Behaviour = Behaviour(stdout: string, stderr: string, execution: Option<Execution>, inputsChanged: bool)

  /** The world of one call: the adapter, and whether each case finds its inputs intact before it starts. */
  datatype Env = Env(adapter: Case -> Behaviour, inputsIntact: Case -> bool)

  datatype Summary = Summary(executed: seq<string>, recovered: seq<string>, resumed: seq<string>, failures: seq<string>)
  datatype Error =
    | AlreadyExists | ManifestUnavailable | LedgerInvalid | InputsChanged | IncompleteCase | InputMutated | CasesInconsistent
  datatype Outcome = Returned(summary: Summary) | Raised(error: Error) | Crashed

  datatype Write =
    | MakeRoot | WriteManifest(manifest: Manifest) | MakeCasesRoot | WriteCheckpoint(checkpoint: Checkpoint)
    | MakeCase(run: CaseRunId) | Invoke(plan: Case)
    | WriteStdout(run: CaseRunId, text: string) | WriteStderr(run: CaseRunId, text: string)
    | WriteResult(run: CaseRunId, record: Record) | AppendEntry(entry: Entry)

  function Put(d: RunDir, run: CaseRunId, c: CaseDir): RunDir {
    d.(cases := d.cases[run := c])
  }

  function Dir(d: RunDir, run: CaseRunId): CaseDir {
    if run in d.cases then d.cases[run] else CaseDir(None, None, None)
  }

  function Apply(d: RunDir, w: Write): RunDir {
    match w
    case MakeRoot => d.(present := true)
    case WriteManifest(m) => d.(manifest := Some(m))
    case MakeCasesRoot => d.(casesRoot := true)
    case WriteCheckpoint(c) => d.(checkpoint := Some(c))
    case MakeCase(run) => Put(d, run, CaseDir(None, None, None))
    case Invoke(plan) => d.(invoked := d.invoked + [plan])
    case WriteStdout(run, text) => Put(d, run, Dir(d, run).(stdout := Some(text)))
    case WriteStderr(run, text) => Put(d, run, Dir(d, run).(stderr := Some(text)))
    case WriteResult(run, record) => Put(d, run, Dir(d, run).(result := Some(record)))
    case AppendEntry(entry) => d.(ledger := d.ledger + [entry])
  }

  // ---------- derived records ----------

  function RunIdOf(m: Manifest, k: nat): CaseRunId
    requires k < |m.cases|
  {
    CaseRunId(m.fingerprint, m.cases[k])
  }

  predicate ValidExecution(e: Execution, allowMutated: bool) {
    (e.termination == INPUT_MUTATED ==> allowMutated) && (e.termination == EXITED <==> e.failure.None?)
  }

  /** What `_execute_case` records. */
  function Executed(b: Behaviour): (e: Execution)
    ensures ValidExecution(e, true) && (e.termination == INPUT_MUTATED <==> b.inputsChanged)
  {
    if b.inputsChanged then Execution(INPUT_MUTATED, Some("input_mutation"))
    else if b.execution.Some? && ValidExecution(b.execution.value, false) then b.execution.value
    else Execution(ADAPTER_FAILED, Some("adapter"))
  }

  function RecordOf(m: Manifest, plan: Case, b: Behaviour): Record {
    Record(m.fingerprint, plan, Executed(b), Sha256(b.stdout), Sha256(b.stderr))
  }

  /** `_read_and_verify_result`: `None` when it raises. */
  function VerifiedResult(m: Manifest, d: RunDir, k: nat): Option<Record>
    requires k < |m.cases|
  {
    var dir := Dir(d, RunIdOf(m, k));
    if dir.result.None? then None
    else
      var r := dir.result.value;
      if r.fingerprint == m.fingerprint && r.plan == m.cases[k] && ValidExecution(r.execution, true)
         && dir.stdout.Some? && Sha256(dir.stdout.value) == r.stdout
         && dir.stderr.Some? && Sha256(dir.stderr.value) == r.stderr
      then Some(r) else None
  }

  /** `_ledger_entry`. */
  function EntryFor(sequence: nat, r: Record): Entry {
    Entry(sequence, CaseRunId(r.fingerprint, r.plan), Sha256Of(r), r.stdout, r.stderr)
  }

  /** `_read_and_verify_ledger`: the records behind the entries, `None` when it raises. */
  function VerifiedLedger(m: Manifest, d: RunDir, n: nat): Option<seq<Record>>
    requires n <= |d.ledger|
  {
    if n == 0 then Some([])
    else if n > |m.cases| then None
    else
      match VerifiedLedger(m, d, n - 1)
      case None => None
      case Some(records) =>
        match VerifiedResult(m, d, n - 1)
        case None => None
        case Some(r) => if d.ledger[n - 1] == EntryFor(n, r) then Some(records + [r]) else None
  }

  /** `_checkpoint`. */
  function CheckpointOf(m: Manifest, ledger: seq<Entry>, records: seq<Record>): Checkpoint {
    Checkpoint(m.fingerprint, LedgerSha256(ledger), |records|,
               seq(|records|, i requires 0 <= i < |records| => CaseRunId(records[i].fingerprint, records[i].plan)))
  }

  /** The ids of the cases from `a` up to `b`. */
  function CaseIds(m: Manifest, a: nat, b: nat): seq<string>
    requires a <= b <= |m.cases|
  {
    if a == b then [] else CaseIds(m, a, b - 1) + [m.cases[b - 1].id]
  }

  function RunIds(m: Manifest, n: nat): set<CaseRunId>
    requires n <= |m.cases|
  {
    if n == 0 then {} else RunIds(m, n - 1) + {RunIdOf(m, n - 1)}
  }

  /** The failures a summary lists. */
  function Failures(records: seq<Record>): seq<string> {
    if records == [] then [] else
      var r := records[|records| - 1];
      var earlier := Failures(records[..|records| - 1]);
      if r.execution.failure.Some? then earlier + [r.plan.id] else earlier
  }

  // ---------- what every interrupted call keeps ----------

  predicate DistinctCases(m: Manifest) {
    forall i, j :: 0 <= i < j < |m.cases| ==> m.cases[i].id != m.cases[j].id
  }

  /** Case `k` is recorded: its directory holds a verified result and the ledger lists it at its place. */
  predicate Recorded(m: Manifest, d: RunDir, k: nat)
    requires k < |m.cases| && k < |d.ledger|
  {
    VerifiedResult(m, d, k).Some? && d.ledger[k] == EntryFor(k + 1, VerifiedResult(m, d, k).value)
  }

  /** The case after the recorded ones has a directory already. */
  predicate Begun(m: Manifest, d: RunDir) {
    |d.ledger| < |m.cases| && RunIdOf(m, |d.ledger|) in d.cases
  }

  predicate Invariant(m: Manifest, d: RunDir) {
    && (!d.present ==> d == ABSENT)
    && (d.manifest.None? ==> d == ABSENT || d == ABSENT.(present := true))
    && (d.manifest.Some? ==> d.manifest == Some(m))
    && (!d.casesRoot ==> d.cases == map[] && d.ledger == [] && d.invoked == [])
    && |d.ledger| <= |m.cases|
    && (forall k :: 0 <= k < |d.ledger| ==> Recorded(m, d, k))
    && d.cases.Keys == RunIds(m, |d.ledger|) + (if Begun(m, d) then {RunIdOf(m, |d.ledger|)} else {})
    && (d.invoked == m.cases[..|d.ledger|] || (Begun(m, d) && d.invoked == m.cases[..|d.ledger| + 1]))
    && (Begun(m, d) && Dir(d, RunIdOf(m, |d.ledger|)).result.Some? ==>
          VerifiedResult(m, d, |d.ledger|).Some? && d.invoked == m.cases[..|d.ledger| + 1])
  }

  /** The case a crash left begun can be recovered, and if none is begun nothing needs to be. */
  predicate Recoverable(m: Manifest, d: RunDir) {
    Begun(m, d) ==> Dir(d, RunIdOf(m, |d.ledger|)).result.Some?
  }

  /** How case `k` terminates in this call. */
  function TerminationOf(m: Manifest, env: Env, d: RunDir, k: nat): Termination
    requires k < |m.cases|
  {
    var dir := Dir(d, RunIdOf(m, k));
    if dir.result.Some? then dir.result.value.execution.termination else Executed(env.adapter(m.cases[k])).termination
  }

  /** Every case not yet recorded can be obtained without finding its inputs changed. */
  predicate AllComplete(m: Manifest, env: Env, d: RunDir) {
    && Recoverable(m, d)
    && forall k :: |d.ledger| <= k < |m.cases| ==>
         env.inputsIntact(m.cases[k]) && TerminationOf(m, env, d, k) != INPUT_MUTATED
  }

  /** A call that is not interrupted returns. */
  predicate Returns(m: Manifest, resume: bool, env: Env, d: RunDir) {
    (d.present ==> resume && d.manifest == Some(m)) && AllComplete(m, env, d)
  }

  /** The next case finds its inputs intact, can be obtained, and does not end with mutated inputs. */
  predicate Completes(m: Manifest, env: Env, d: RunDir)
    requires |d.ledger| < |m.cases|
  {
    var n := |d.ledger|;
    env.inputsIntact(m.cases[n]) && Recoverable(m, d) && TerminationOf(m, env, d, n) != INPUT_MUTATED
  }

  /** A case directory with a result never changes. */
  predicate KeepsResults(d: RunDir, d': RunDir) {
    forall run :: run in d.cases && d.cases[run].result.Some? ==> run in d'.cases && d'.cases[run] == d.cases[run]
  }

  /** Ledger and invocations only grow at the end, and results stay. */
  predicate Extends(d: RunDir, d': RunDir) {
    d.ledger <= d'.ledger && d.invoked <= d'.invoked && KeepsResults(d, d')
  }

  /** What a call that obtained case `k` leaves in its directory: what was there, or what the adapter did. */
  predicate Obtained(m: Manifest, env: Env, before: RunDir, d: RunDir, k: nat)
    requires k < |m.cases|
  {
    var run, b := RunIdOf(m, k), env.adapter(m.cases[k]);
    && run in d.cases
    && d.cases[run] == if run in before.cases then before.cases[run]
                       else CaseDir(Some(b.stdout), Some(b.stderr), Some(RecordOf(m, m.cases[k], b)))
  }

  /** How many of the cases not yet recorded in `d` a call recovers. */
  function RecoveredCount(m: Manifest, d: RunDir): nat {
    if Begun(m, d) then 1 else 0
  }

  function RecordIds(records: seq<Record>): seq<string> {
    seq(|records|, i requires 0 <= i < |records| => records[i].plan.id)
  }
}
