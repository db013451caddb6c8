# Verification of the trusted-state core

A Dafny model of the parts of `autonomous_math_research` that decide what becomes
trusted state and how that state survives crashes, repeated messages and partial
reads, with proofs about every run of them. `dafny verify dfyconfig.toml` checks
the whole project.

## What is modelled

- **Canonical transition store** (`Transition*.dfy`). The write-ahead transaction
  over (live files, snapshot bundles, ledger). `CanonicalTransitionStore` carries
  out `commit` and `recover` write by write and may die before any of them: the
  field `fuel` is the number of writes it still has to live. Each method is proved
  to perform a prefix of a plan, a list of writes computed from the disk, and the
  theorems are about plans: crash atomicity, the hash chain, restartability, and
  exactly when a commit returns.
- **Claim graph** (`Models`, `DomainSemantics`, `Digraph`, `ClaimGraph*.dfy`). The
  explicit-stack closure, the recursive cycle search, the blocking fixpoint and the
  inverse index are proved against reachability, acyclicity, least fixpoints and
  inverses of the resolved relation; the status, trust and evidence updates against
  what every run keeps.
- **Audit gate** (`AuditGate*.dfy`, `Texts`). The per-candidate results, their invariant under
  recording and discarding, and the composition with the claim graph.
- **Experiment runner** (`Experiment*.dfy`). Runs and resumes over a case directory, a
  result, a ledger and a checkpoint, dying between any two storage operations.
- **Turns of the app server client** (`TurnOwnership`, `TurnAlarms`,
  `AppServer*.dfy`). The ownership
  registry; the waiters, buffers, aliases and retired ids; and runs that interleave
  notifications, responses, failures and returns over any number of threads.
- **Terminal input and JSONL following** (`ChunkedReading`, `Terminal*.dfy`,
  `JsonlFollower`). Incremental readers against reading in one piece.
- **Markdown state block** (`MarkdownState`). Replacing, rendering and extracting it.

Classes hold the fields of the originals and their methods change them in place;
each method's contract ties the new state to a function of the old one, and the
theorems are about those functions.

## Assumptions

- SHA-256 and `stable_hash` are injective and yield values no content can contain
  before they are computed: `Sha256` and `TransitionId` are free constructors.
- One storage write is atomic: a snapshot write, an append, a replacement.
- Only the store writes managed files, the trusted-state path is the same in every
  commit, and target paths are distinct files. Preconditions may name any file; where
  a transaction changes a file its own preconditions name, crash safety is lost, and
  the theorems that need this excluded say so and have their converse.
- Where a domain has no proof obligations its claims carry none, which the constructor of
  the graph checks; only the theorems about settled claims use it.
- Turn ids are not shared across threads, a response carries an id, and at most 4096
  threads retire ids in the theorems about retired ids, which bound a `pool` of threads;
  in `EndedTurnStaysSpent` a notification does not name two different turns.

## Findings

Properties one would expect of the code that hold only under a condition; each has
the exact condition, and an input or a run from the start that fails it.

- `commit` accepts a `claim_graph_sha256` that is not the digest of its graph target
  and only finds out after PREPARED. The store is then wedged for good
  (`CommitReturnsIff`, `UnboundGraphWedges`, `WedgedForever`, `UnboundGraphExample`).
- A precondition on a file that the same commit changes makes a crash between
  replacement and COMMITTED unrecoverable (`CrashSafeIff`, `OverlapExample`; for a
  pending transaction `RestartableIff`).
- A call can be settled by a completion delivered before it opened, if an earlier call
  of the thread saw two turns complete before its response
  (`NothingOlderSettlesIff`, `StrandedCompletion`).
- A call can be settled by another turn whose late completion is not kept out because
  its id was never retired (`SettledByOwnTurnIff`). The ends of a call that leave an id
  of it behind are those of `EndRetiresIff`: a wait that is cancelled, which retires
  nothing (`CancelledCallExposesNext`), one whose final response came before its stream id
  was heard (`FinalResponseExposesNext`) or whose stream id was forgotten
  (`RefusedCallTakesReply`), and a request that fails or is cancelled before its stream is
  heard (`FailedStartExposesNext`); without such ends it does not happen (`CallsSettleOwn`).
  A native continuation that is heard before the call's first start is another such turn.
- A refused second call on a thread throws away the completion buffered for the first
  (`StepDueIff`, `RefusedCallLosesCompletion`). If the first call already waits, it forgets
  the record that the model was rerouted and the stream id, and with that the reply of a
  call that ends without a completion (`RefusedCallKeepsReplyIff`, `RefusedCallTakesReply`).
- The terminal parser depends on how its input is cut as soon as `\d` accepts a digit
  that is not ASCII (`ChunkInvariantIff`): a mouse report cut after such a digit is lost,
  and nothing else is (`FeedingIsReadingIff`).
- A terminal claim can have gaps and open obligations: `validate` accepts it, and only an
  applied verdict with a terminal status settles it (`RunSettlesIff`, `UnsettledExample`).
- Recovery and verification notice an outside edit only of a file the latest commit wrote
  (`EditNoticedIff`).
- A payload containing a marker makes the page it is rendered into malformed
  (`RenderedStaysMarkedIff`).
- `_recompute_state` forgets a label `record` keeps when an UNRESOLVED follows a PASS,
  never a terminal one (`RecomputeAgrees`).

## Model

| member | source | states |
|---|---|---|
| TransitionPromises.CrashAtomicity | src/autonomous_math_research/canonical_transition.py:372-556 | for every run of commits and recoveries dying at any write, with outside edits to unmanaged files, once `recover` returns every managed file is the initial file overwritten by the after-snapshots of all PREPARED records in ledger order, and nothing is pending |
| TransitionPromises.CommitAllOrNothing | src/autonomous_math_research/canonical_transition.py:446-556 | a commit that changes no file named in its preconditions, dying before its PREPARED append, leaves no trace once recovery has run; dying later, or not at all, it is applied in full and the ledger gains exactly one PREPARED/COMMITTED pair |
| TransitionEffects.CommitLeaves | src/autonomous_math_research/canonical_transition.py:446-556 | a commit that returns, returns one id; the trusted state then is the document of the request with the graph digest of the request and that id and every other field as it was, every other target holds the content of the request, and every file that is neither a target nor one of the transaction finished first is unchanged |
| TransitionEffects.CrashedCommitLeaves | src/autonomous_math_research/canonical_transition.py:372-556 | the same after recovery from any crash past PREPARED, whenever that recovery returns |
| TransitionEffects.RecoveryTouches | src/autonomous_math_research/canonical_transition.py:372-429 | recovery changes no file but those of the pending transaction |
| TransitionLedger.RecoveryFinishesAll | src/autonomous_math_research/canonical_transition.py:372-429 | however many transactions are pending, recovery that returns names all of them in ledger order, appends one COMMITTED for each, and leaves the files overwritten by what each leaves in turn |
| TransitionLedger.ValidLedgerIff | src/autonomous_math_research/canonical_transition.py:234-298 | a ledger is valid exactly when each PREPARED is acceptable and the first under its id, and each COMMITTED is the first of its id and follows a PREPARED of the same id and authorization |
| TransitionLedger.SnapshotTamperIff | src/autonomous_math_research/canonical_transition.py:146-232 | a valid ledger stays valid over other bundles exactly when these still hold, unchanged, both snapshots of every file of every transaction |
| TransitionLedger.AcceptedIdBinds | src/autonomous_math_research/canonical_transition.py:146-232 | two acceptable records under one id, whatever their bundles, agree on authorization, preconditions, files, before-digests and, but for the trusted state, after-digests |
| TransitionLedger.EditNoticedIff | src/autonomous_math_research/canonical_transition.py:286-307 | on a settled disk an outside edit makes `verify_current` and `recover` raise exactly when it changes a file of the latest commit |
| TransitionOverlap.CrashSafeIff | src/autonomous_math_research/canonical_transition.py:446-556 | a ready commit is all or nothing at every crash point exactly when its claim-graph digest is bound and neither it nor the transaction it finishes first changes a file named in its own preconditions |
| TransitionOverlap.CommitStrands | src/autonomous_math_research/canonical_transition.py:387-426 | a ready commit that changes such a file has a crash point after which recovery only raises |
| TransitionOverlap.OverlapExample | src/autonomous_math_research/canonical_transition.py:446-556 | concrete first commit, replacing the graph under a precondition on the old graph, that returns when uninterrupted and is stranded by a crash |
| TransitionOverlap.KeptRunsRestartable | src/autonomous_math_research/canonical_transition.py:372-429 | over every run whose requests change no file named in their preconditions, recovery that returns would return the same after dying anywhere |
| TransitionPromises.CommitReturnsIff | src/autonomous_math_research/canonical_transition.py:446-556 | an uninterrupted commit returns exactly when pending work can be finished, its own checks pass, and the caller's graph digest is that of its graph target |
| TransitionPromises.UnboundGraphWedges | src/autonomous_math_research/canonical_transition.py:194-211 | a commit whose graph digest is not bound is only rejected after PREPARED: it raises, and no later recovery can succeed whatever the live files hold |
| TransitionPromises.UnboundGraphExample | src/autonomous_math_research/canonical_transition.py:483-556 | concrete request on a new store that wedges it |
| TransitionPromises.WedgedForever | src/autonomous_math_research/canonical_transition.py:234-298 | from a wedged disk no run of commits and recoveries, with outside edits to unmanaged files, ever writes anything again |
| TransitionWedged.ValidatesIff | src/autonomous_math_research/canonical_transition.py:194-298 | what every run keeps is the invariant exactly when the ledger validates, that is when all its PREPARED records are acceptable |
| TransitionWedged.PreparingConsistent | src/autonomous_math_research/canonical_transition.py:472-556 | staging and PREPARED of any request on a settled disk keep it consistent at every write, and wedge it if the claim graph is not bound |
| TransitionPromises.HashChain | src/autonomous_math_research/canonical_transition.py:472-556 | in every reachable ledger, also one that an unbound commit left invalid, each before-digest is the after-digest of the last earlier transition on that path, the trusted state's ids spell the ledger order, and no id repeats |
| TransitionPromises.RunKeepsInvariant | src/autonomous_math_research/canonical_transition.py:234-298 | every reachable ledger is a list of acceptable PREPARED/COMMITTED pairs with at most one trailing PREPARED, and the live files agree with it; the trailing one is unacceptable only if a request of the run did not bind its claim graph |
| TransitionPromises.CommitKeepsThroughout | src/autonomous_math_research/canonical_transition.py:446-556 | after every single write of a commit the invariant holds |
| TransitionPromises.RecoveryReturnsIff | src/autonomous_math_research/canonical_transition.py:372-429 | a reachable ledger validates exactly when each of its PREPARED records is acceptable by itself, always while every request binds its claim graph; recovery of it then returns exactly when the preconditions of the pending transaction hold |
| TransitionPromises.ReachableRestartableIff | src/autonomous_math_research/canonical_transition.py:372-429 | recovery of a reachable disk may be interrupted after any write and repeated with the same result exactly when the pending transaction changes no file its preconditions name; once it returned, a further recovery writes nothing |
| TransitionPromises.StagingLeavesNoTrace | src/autonomous_math_research/canonical_transition.py:521-540 | a commit dying while it stages snapshots leaves live files and ledger as they were |
| TransitionCrash.RestartableIff | src/autonomous_math_research/canonical_transition.py:372-429 | recovery of a pending transaction survives a crash at every point exactly when the transaction changes no file its preconditions name |
| TransitionCrash.OverlapStrands | src/autonomous_math_research/canonical_transition.py:387-426 | when a precondition does name such a file, a crash between the replacements and COMMITTED leaves a transaction no recovery finishes |
| TransitionCrash.UnknownStateFailsClosed | src/autonomous_math_research/canonical_transition.py:399-409 | if a target of the pending transaction holds a third value, recovery raises and writes nothing |
| TransitionCrash.FinishSame | src/autonomous_math_research/canonical_transition.py:410-426 | finishing a partly replaced transaction gives the same disk as finishing it from the start |
| TransitionTheorems.RecoverReachable | src/autonomous_math_research/canonical_transition.py:372-429 | recovery of an invariant disk returns exactly when the pending preconditions hold, keeps the invariant at every write, adds no PREPARED and leaves nothing pending; otherwise it writes nothing |
| TransitionTheorems.SettledRecovers | src/autonomous_math_research/canonical_transition.py:372-429 | on a settled invariant disk recovery returns no ids and writes nothing |
| TransitionTheorems.TrailingIsOnlyPending | src/autonomous_math_research/canonical_transition.py:377-383 | the only transaction recovery finds uncommitted is the trailing PREPARED of the ledger |
| TransitionCommit.NewIdIsNew | src/autonomous_math_research/canonical_transition.py:478-519 | a commit never computes an id the ledger already holds, so the early return for a committed id is not taken |
| TransitionCommit.PreparingKeeps | src/autonomous_math_research/canonical_transition.py:521-554 | staging and the PREPARED append keep the invariant at every write and leave exactly the new transaction pending |
| TransitionCommit.StageReachable | src/autonomous_math_research/canonical_transition.py:521-556 | a ready commit on a settled disk writes its snapshots, one PREPARED, its targets and one COMMITTED, in that order |
| TransitionRecords.RecordAcceptedIff | src/autonomous_math_research/canonical_transition.py:92-232 | the record `commit` appends passes `_validate_prepared_record` exactly when the request binds its claim graph |
| TransitionRecords.SeedRecomputed | src/autonomous_math_research/canonical_transition.py:212-227 | the seed validation recomputes from the record is the seed `commit` hashed |
| TransitionRecords.OnlyTrustedCarriesId | src/autonomous_math_research/canonical_transition.py:157-173 | the trusted state is the one target whose after-snapshot carries the transition id: any other content is hashed into the id |
| TransitionRecords.GraphBoundIff | src/autonomous_math_research/canonical_transition.py:194-211 | the record binds its graph target exactly when the caller's digest is the after-digest of the named, or the only matching, target |
| TransitionCommit.RecordKeptIff | src/autonomous_math_research/canonical_transition.py:446-556 | the record of a commit changes no file its preconditions name exactly when the request writes back, to every such file other than the trusted state, what the precondition wants |
| TransitionRuns.IdsIncrease | src/autonomous_math_research/canonical_transition.py:472-500 | ids grow strictly along a chained ledger |
| TransitionRuns.LegalKeepsInvariant | src/autonomous_math_research/canonical_transition.py:372-556 | each legal storage operation keeps the invariant |
| TransitionRuns.PairsValidate | src/autonomous_math_research/canonical_transition.py:234-298 | a list of accepted PREPARED/COMMITTED pairs validates to exactly its ids, records and committed records |
| TransitionRuns.PreparedValidates | src/autonomous_math_research/canonical_transition.py:234-298 | so does such a list with one more accepted PREPARED record at its end |
| TransitionStore.CanonicalTransitionStore.Perform | src/autonomous_math_research/canonical_transition.py:409-422 | one snapshot write, append or live replacement: all of it happens, or the process is dead before it |
| TransitionStore.CanonicalTransitionStore.ValidatePrepared | src/autonomous_math_research/canonical_transition.py:92-232 | accepts exactly the records with distinct preconditions and targets, intact snapshots, one trusted target, a bound graph and the recomputed id |
| TransitionStore.CanonicalTransitionStore.CheckPreconditions | src/autonomous_math_research/canonical_transition.py:117-131 | returns the precondition map, or fails exactly on a duplicate path |
| TransitionStore.CanonicalTransitionStore.CheckTargets | src/autonomous_math_research/canonical_transition.py:133-172 | returns the targets carrying the id, or fails exactly when a path repeats or a snapshot is missing or altered |
| TransitionStore.CanonicalTransitionStore.ValidatedLedger | src/autonomous_math_research/canonical_transition.py:234-298 | the loop over the ledger computes the validated ledger or rejects it |
| TransitionStore.CanonicalTransitionStore.Verify | src/autonomous_math_research/canonical_transition.py:286-298 | raises exactly when the ledger is invalid or the latest committed targets are not live |
| TransitionStore.CanonicalTransitionStore.ReplaceTargets | src/autonomous_math_research/canonical_transition.py:410-421 | replaces exactly the targets not yet live, in order, stopping where the process dies |
| TransitionStore.CanonicalTransitionStore.RollForwardOne | src/autonomous_math_research/canonical_transition.py:384-427 | performs a prefix, as long as the process lives, of the plan of one transaction |
| TransitionStore.CanonicalTransitionStore.Recover | src/autonomous_math_research/canonical_transition.py:372-429 | performs a prefix of the recovery plan of the disk, with its outcome if it lives |
| TransitionStore.CanonicalTransitionStore.StageSnapshots | src/autonomous_math_research/canonical_transition.py:521-540 | performs a prefix of the before/after snapshot writes and returns the target records |
| TransitionStore.CanonicalTransitionStore.Prepare | src/autonomous_math_research/canonical_transition.py:457-554 | the checks of `commit` after its first recovery, then staging and PREPARED |
| TransitionStore.CanonicalTransitionStore.Commit | src/autonomous_math_research/canonical_transition.py:446-556 | performs a prefix of the commit plan of the disk, with its outcome if it lives |
| ClaimGraph.ClaimGraph.DependencyClosure | src/autonomous_math_research/claim_graph.py:237-250 | the explicit-stack loop returns the recursive preorder with sorted children, on cyclic graphs too, and raises exactly when a reachable claim does not resolve |
| Digraph.PreorderIsReachability | src/autonomous_math_research/claim_graph.py:237-250 | that preorder starts with the root, lists each claim once, and lists exactly the reachable claims |
| ClaimGraph.PushSuccessors | src/autonomous_math_research/claim_graph.py:244-249 | popping a claim and pushing its reversed sorted dependencies continues the recursive traversal |
| ClaimGraph.ClaimGraph.Visit | src/autonomous_math_research/claim_graph.py:351-370 | the recursive visit fails only on a cycle and otherwise leaves the node and everything below it finished |
| ClaimGraph.ClaimGraph.SearchCycles | src/autonomous_math_research/claim_graph.py:349-373 | raises exactly when the resolved relation, self-edges dropped, has a cycle; when it returns a topological rank exists |
| Digraph.FinishedIsRanked | src/autonomous_math_research/claim_graph.py:351-370 | a finished order of all claims ranks every claim above its dependencies |
| Digraph.RankedIsAcyclic | src/autonomous_math_research/claim_graph.py:326-373 | a relation with such a rank has no cycle |
| ClaimGraph.ClaimGraph.Validate | src/autonomous_math_research/claim_graph.py:326-373 | returns exactly when ids, references, parents, statuses and obligations are well formed and the resolved relation is acyclic |
| ClaimGraphModel.ResolvedSet | src/autonomous_math_research/claim_graph.py:226-235 | a claim's resolved dependencies are claims and never the claim itself |
| ClaimGraph.ClaimGraph.Block | src/autonomous_math_research/claim_graph.py:640-658 | the fixpoint loop blocks exactly the claims with a non-empty dependency path to a failed claim, whatever the order, and following reasons always leads to a failed claim |
| ClaimGraph.BlockedIsLeast | src/autonomous_math_research/claim_graph.py:645-657 | a saturated grounded map is the least fixpoint |
| ClaimGraph.ClaimGraph.PruneFailed | src/autonomous_math_research/claim_graph.py:640-658 | the claims from which a path of dependencies leads to a trusted claim with a negative terminal status, each with its failed dependencies and those blocked before it, sorted; or a raise exactly when some claim does not resolve |
| ClaimGraph.ClaimGraph.RebuildDependents | src/autonomous_math_research/claim_graph.py:263-271 | afterwards every claim lists, sorted, exactly the claims whose resolved dependencies contain it, and nothing else changed |
| ClaimGraph.ClaimGraph.CollectDependents | src/autonomous_math_research/claim_graph.py:266-269 | the append loops list, for each claim, exactly the claims that depend on it |
| ClaimGraph.ClaimGraph.RegisterCandidate | src/autonomous_math_research/claim_graph.py:496-534 | the new claims and key order of `mark_candidate`, or a raise that changes nothing |
| ClaimGraph.ClaimGraph.ApplyAuditPass | src/autonomous_math_research/claim_graph.py:536-620 | the claims after the call; it raises exactly on an unknown claim, too little evidence, a refusing guard or a forbidden polarity, and then nothing changes |
| ClaimGraph.ClaimGraph.ApplyAuditReject | src/autonomous_math_research/claim_graph.py:622-638 | rejects exactly an untrusted candidate of its named parent, changing its trust only |
| ClaimGraph.ClaimGraph.CloseObligations | src/autonomous_math_research/claim_graph.py:606-619 | closes exactly the open and blocked obligations, merging evidence paths |
| ClaimGraphTheorems.RunProgress | src/autonomous_math_research/claim_graph.py:536-638 | over every run from any graph evidence rank never falls, trusted and terminal claims stay so, polarity is fixed outside mathematics and closed obligations never change |
| ClaimGraphTheorems.PassAdvances | src/autonomous_math_research/claim_graph.py:536-620 | one applied verdict advances any claim so, and leaves it settled (not terminal, or without gap and open obligation) exactly when it was settled or the verdict gives it a terminal status |
| ClaimGraphTheorems.RunSettlesIff | src/autonomous_math_research/claim_graph.py:294-620 | after every run a claim is settled exactly when it was before or an applied verdict of the run gave it a terminal status |
| ClaimGraphTheorems.RunCreatesSettled | src/autonomous_math_research/claim_graph.py:490-535 | every claim a run creates is settled |
| ClaimGraphTheorems.RunKeepsTidy | src/autonomous_math_research/claim_graph.py:536-620 | a graph whose terminal claims are all settled stays so over every run |
| ClaimGraphTheorems.UnsettledExample | src/autonomous_math_research/claim_graph.py:294-373 | a valid graph with a trusted proved claim that has a gap |
| ClaimGraphTheorems.RunOutcomeIs | src/autonomous_math_research/claim_graph.py:560-600 | after every run the terminal outcome of a claim is that of the last applied verdict that decided it, or the one it had; outside mathematics they all agree |
| ClaimGraphVerdicts.PassLeaves | src/autonomous_math_research/claim_graph.py:536-620 | the claim an applied verdict leaves, field by field: trust, the higher evidence level, sorted unions of evidence and counterexamples, and for a deciding event no gap, the status of its polarity and each open or blocked obligation closed with that polarity on the evidence of the event |
| ClaimGraphVerdicts.RunClosesIff | src/autonomous_math_research/claim_graph.py:597-617 | after every run an obligation that was open or blocked is closed exactly if a verdict decided its claim, with the polarity and evidence of the first that did; every other obligation is unchanged |
| ClaimGraphVerdicts.OutcomeOfEvent | src/autonomous_math_research/domain_semantics.py:56-200 | which events refute, which establish, that no other decides, and the evidence the deciding ones need |
| ClaimGraphVerdicts.StatusLeft | src/autonomous_math_research/claim_graph.py:580-596 | the status an applied verdict leaves: a deciding one gives its own, any other gives its own to a claim that is not terminal, except that a computation alone only replaces an open or plausible status |
| ClaimGraphVerdicts.StatusesAre | src/autonomous_math_research/domain_semantics.py:44-200 | the statuses of a domain are the initial one, that of a new candidate, and those its events give |
| ClaimGraphVerdicts.RejectIs | src/autonomous_math_research/claim_graph.py:622-638 | a rejection applies exactly to an untrusted candidate made for the parent the event names, marks it REJECTED and changes nothing else |
| ClaimGraphVerdicts.RunTrustIs | src/autonomous_math_research/claim_graph.py:536-638 | after every run the trust of a claim is the one it had, or that of the last verdict or rejection that applied to it |
| ClaimGraphChecks.ValidGraphIff | src/autonomous_math_research/claim_graph.py:326-373 | a graph is valid exactly when obligation ids are unique and no claim ids, every claim has a status of the domain, existing dependencies and an existing other parent, every obligation a statement and existing distinct dependencies, and the resolved dependencies no cycle |
| ClaimGraphChecks.EdgesAre | src/autonomous_math_research/claim_graph.py:105-232 | a resolved dependency is another claim listed as one or named, itself or one of its obligations, by an obligation of the claim |
| ClaimGraphChecks.MarkRaisesIff | src/autonomous_math_research/claim_graph.py:485-531 | registering raises exactly on an unknown event, an unknown dependency, an unknown parent of a new claim, or another claim under the id; an existing claim is left as it is |
| ClaimGraphChecks.SecondCandidateIff | src/autonomous_math_research/claim_graph.py:496-531 | a second candidate for a claim just registered is accepted exactly when statement and assumptions have the same words and dependencies and parent are the same, and changes nothing |
| ClaimGraphChecks.EnsuredObligations | src/autonomous_math_research/claim_graph.py:280-320 | a claim of mathematics without obligations gets one for each gap that is not blank, or for its statement, closed only if it is trusted and proved or failed; elsewhere a claim must have none |
| ClaimGraphTheorems.MarkKeepsValidIff | src/autonomous_math_research/claim_graph.py:496-534 | registering a candidate keeps a valid graph valid exactly when it restates an existing claim or its id, obligation id and dependency list are fresh |
| ClaimGraphTheorems.RunKeepsValid | src/autonomous_math_research/claim_graph.py:263-373 | over every run from a valid graph whose new candidates are fresh the graph stays valid |
| ClaimGraphTheorems.NewClaimIs | src/autonomous_math_research/claim_graph.py:280-320 | the claim a new candidate becomes: its gap is its one obligation where the domain has obligations |
| AuditGate.AuditGate.Register | src/autonomous_math_research/audit_gate.py:43-50 | registers a candidate once; an unsupported event type is refused |
| AuditGate.AuditGate.CountPasses | src/autonomous_math_research/audit_gate.py:162-163 | the number of PASS results |
| AuditGate.AuditGate.Record | src/autonomous_math_research/audit_gate.py:109-160 | records exactly the acceptable results, with the resulting label and terminal flag; otherwise nothing changes |
| AuditGate.AuditGate.DiscardPassResults | src/autonomous_math_research/audit_gate.py:92-107 | removes exactly the named PASS results and recomputes the state |
| AuditGateTheorems.GateRunInvariant | src/autonomous_math_research/audit_gate.py:75-163 | after any mix of `record` and `discard_pass_results`, terminal means a REJECT or enough passes, passes never exceed `required`, a REJECT is unique and last, audit ids and threads are distinct, every result checked the statement of the event in a kind of audit it calls for, and every PASS has checks, all of them passed, and no gap |
| AuditGateTheorems.RecomputeAgrees | src/autonomous_math_research/audit_gate.py:75-90 | `_recompute_state` agrees with the recorded state on the terminal flag and on every terminal label; it differs exactly when a pass is hidden behind a later UNRESOLVED |
| AuditGateTheorems.RecordedIff | src/autonomous_math_research/audit_gate.py:109-137 | in every reachable state `record` accepts exactly an independent result of the due kind that checked the statement at an earned level and, if it passes, passes cleanly, while nothing is rejected and passes are missing |
| AuditGateTheorems.KindsInOrder | src/autonomous_math_research/audit_gate.py:52-73 | without discards the first audit is of the kind due first and every later one of the other kind |
| AuditGateTheorems.OpenLabelIs | src/autonomous_math_research/audit_gate.py:75-160 | an open candidate is labelled AUDIT_1_PASS exactly when it has a pass and its last change was not an UNRESOLVED |
| AuditGateTheorems.ResultsAfter | src/autonomous_math_research/audit_gate.py:92-160 | in every reachable state a recorded result is appended and a discard removes exactly the named passes |
| AuditGateTheorems.RequiredAuditsIs | src/autonomous_math_research/audit_gate.py:32-41 | two audits exactly for a critical candidate audited twice, none exactly in mathematics below the threshold, else one |
| Texts.SameTextIff | src/autonomous_math_research/audit_gate.py:112-113 | two statements are the same exactly when they have the same words, however these are spaced |
| AuditGateTheorems.UnauditedStaysPending | src/autonomous_math_research/audit_gate.py:109-160 | a candidate that requires no audit accepts none and never becomes terminal |
| AuditGateTheorems.RejectionSurvives | src/autonomous_math_research/audit_gate.py:92-107 | discarding passes keeps a rejection |
| AuditGateTheorems.AuditedEvidence | src/autonomous_math_research/audit_gate.py:109-173 | when the gate reports AUDITED_NIGHTLY there are exactly `required` passes, all clean and of the statement of the event, no rejection, and the lowest verified evidence meets the minimum of the event, is not E5, and exceeds the proposed level only by the E2 to E3 evaluator upgrade |
| AuditGateTheorems.AuditedVerdictApplies | src/autonomous_math_research/claim_graph.py:543-578 | from gate to graph: an AUDITED_NIGHTLY verdict raises only on polarity or guard, changes nothing only for a representation bridge, and does not raise its claim to E5 |
| AuditGateTheorems.GatedRunNeverReachesE5 | src/autonomous_math_research/claim_graph.py:536-638 | no run of candidates, rejections and verdicts the gate reported as AUDITED_NIGHTLY raises a claim to E5 |
| ExperimentRunner.RunAttempts | src/autonomous_math_research/experiment.py:490-563 | processes that call `run` one after the other, each dying where its fuel ends, from before the directory existed: ledger, invocations and results only grow, the ledger lists the first cases of the manifest in order, no case is given to the adapter twice, and at most one case directory lacks a ledger entry |
| ExperimentRunner.HistoryAccounts | src/autonomous_math_research/experiment.py:490-563 | the same for every history of calls each of which does what `Run` promises |
| ExperimentRunner.InvariantAccounts | src/autonomous_math_research/experiment.py:490-563 | a directory satisfying the invariant accounts for its cases in that way |
| ExperimentRunner.SummaryPartitions | src/autonomous_math_research/experiment.py:510-563 | a call that returns accounts for every case exactly once as resumed, recovered or executed, recovering at most one |
| ExperimentRunner.HistoryExtends | src/autonomous_math_research/experiment.py:490-563 | ledger, invocation log and case results of a directory are extended by every later call |
| ExperimentRunner.CompletesLater | src/autonomous_math_research/experiment.py:510-536 | whether the next case completes depends only on the directory the call opened and on its inputs |
| ExperimentRunner.LedgerVerifies | src/autonomous_math_research/experiment.py:1122-1166 | a directory satisfying the invariant has a ledger that verifies to the recorded results |
| ExperimentRunner.ExperimentRunner.Perform | src/autonomous_math_research/experiment.py:134-165 | one exclusive write, append or atomic replacement: all of it, or the process is dead before it |
| ExperimentRunner.ExperimentRunner.RepairCheckpoint | src/autonomous_math_research/experiment.py:1212-1231 | afterwards the checkpoint is the function of the ledger |
| ExperimentRunner.ExperimentRunner.ExecuteCase | src/autonomous_math_research/experiment.py:794-922 | runs the adapter once on a fresh case directory and stores artifacts and result, stopping where the process dies |
| ExperimentRunner.ExperimentRunner.ReadLedger | src/autonomous_math_research/experiment.py:1122-1166 | returns the verified records, or fails exactly when an entry does not match its result |
| ExperimentRunner.ExperimentRunner.ObtainResult | src/autonomous_math_research/experiment.py:517-534 | recovers the result of an existing case directory, executes the case if there is none, and fails closed on a directory without result |
| ExperimentRunner.ExperimentRunner.RecordResult | src/autonomous_math_research/experiment.py:536-546 | appends exactly the entry of the obtained result and brings the checkpoint up to date |
| ExperimentRunner.ExperimentRunner.Run | src/autonomous_math_research/experiment.py:452-563 | one call, interrupted anywhere, only extends the directory and keeps its invariant; a returned call completed every case and left the checkpoint current; it returns exactly when it can |
| ExperimentReports.ExecutionRecorded | src/autonomous_math_research/experiment.py:794-880 | an acceptable answer of the adapter on unchanged inputs is recorded as it is, anything else on unchanged inputs as ADAPTER_FAILED, changed inputs as INPUT_MUTATED; EXITED is recorded exactly for a run to the end |
| ExperimentReports.FailuresReported | src/autonomous_math_research/experiment.py:551-563 | the failures of a returned call are, in order, exactly the cases found with a failure recorded and the executed ones whose adapter did not run to its end on unchanged inputs |
| ExperimentReports.ExecutedReported | src/autonomous_math_research/experiment.py:510-546 | a case is executed exactly when the call found no directory of it; its directory then holds the output of the adapter and its acceptable answer |
| ExperimentReports.TamperedIff | src/autonomous_math_research/experiment.py:1122-1166 | reading a ledger back raises exactly when the directory of some recorded case is not as it was recorded |
| ExperimentReports.ReadBackIff | src/autonomous_math_research/experiment.py:1036-1120 | a stored result is read back exactly if the directory holds both outputs and the record of them for this manifest and case |
| TurnOwnership.QuietIff | src/autonomous_math_research/app_server.py:652-695 | between begin and finish no alarm is raised exactly when each start after the first, and each completion after the first start, carries an id the turn already claimed |
| TurnAlarms.RecordedAreAlarms | src/autonomous_math_research/app_server.py:627-700 | over any list of calls the registry records, in order, exactly the starts outside every turn of their thread and the starts and completions a turn does not expect, and a thread is open exactly in its windows |
| TurnAlarms.BeginsIff | src/autonomous_math_research/app_server.py:636-647 | `begin` is accepted exactly when no turn is open on the thread and nothing was ever recorded against it |
| TurnAlarms.OnlyOpenTracked | src/autonomous_math_research/app_server.py:627-700 | ids and start counts are kept exactly for the threads with an open turn |
| TurnAlarms.StartOutsideEndsThread | src/autonomous_math_research/app_server.py:652-669 | in any registry a start on a thread without an open turn is recorded, and no later begin on the thread is accepted whatever comes between |
| TurnOwnership.OneTurnIsQuiet | src/autonomous_math_research/app_server.py:652-695 | any order and repetition of started(s), completed(s) and the response r is never an alarm |
| TurnOwnership.OwnedAreClaimed | src/autonomous_math_research/app_server.py:652-695 | the owned ids are exactly the response, the first start and the completions before it |
| TurnOwnership.StrayStartEndsThread | src/autonomous_math_research/app_server.py:652-669 | after the first start, a start under an id the turn does not own is recorded, and the thread never begins again |
| TurnOwnership.RecordedNeverBeginsAgain | src/autonomous_math_research/app_server.py:636-647 | once a continuation of a thread is recorded, every later begin on it is refused |
| TurnOwnership.ThreadsIndependent | src/autonomous_math_research/app_server.py:627-700 | dropping every call about other threads changes neither the answers about a thread nor its state |
| TurnOwnership.TurnOwnershipRegistry.BeginControllerTurn | src/autonomous_math_research/app_server.py:636-647 | opens the thread unless it is open or has a recorded continuation |
| TurnOwnership.TurnOwnershipRegistry.ObserveStarted | src/autonomous_math_research/app_server.py:652-669 | the first start and replays of owned starts are accepted, any other is recorded |
| TurnOwnership.TurnOwnershipRegistry.BindResponse | src/autonomous_math_research/app_server.py:671-677 | adds the response id to an open turn, refuses others |
| TurnOwnership.TurnOwnershipRegistry.ObserveCompleted | src/autonomous_math_research/app_server.py:679-695 | accepts completions of an open turn, recording those under foreign ids after the first start |
| TurnOwnership.TurnOwnershipRegistry.FinishControllerTurn | src/autonomous_math_research/app_server.py:697-700 | forgets the open turn, not the recorded continuations |
| AppServerClient.AppServerClient.HandleNotification | src/autonomous_math_research/app_server.py:1477-1575 | every part of the state after one notification |
| AppServerClient.AppServerClient.HandleTurnStarted | src/autonomous_math_research/app_server.py:1504-1524 | an owned start becomes the active id and the alias of the response |
| AppServerClient.AppServerClient.HandleTurnCompleted | src/autonomous_math_research/app_server.py:1537-1574 | an owned completion updates names and messages and is delivered; any other only reaches the registry |
| AppServerClient.AppServerClient.DeliverCompletion | src/autonomous_math_research/app_server.py:1560-1574 | settles the pending waiters of turn and thread, or buffers the completion under both |
| AppServerClient.AppServerClient.DiscardBufferedCompletion | src/autonomous_math_research/app_server.py:972-978 | removes the thread's completion from both indexes |
| AppServerClient.AppServerClient.PopBufferedCompletion | src/autonomous_math_research/app_server.py:980-1004 | returns the completion filed under the ids or the thread and removes every alias of it |
| AppServerClient.AppServerClient.RetireTurnIds | src/autonomous_math_research/app_server.py:1006-1018 | adds the ids to the thread's retired ids and evicts the oldest other threads beyond 4096 |
| AppServerClient.AppServerClient.OpenTurn | src/autonomous_math_research/app_server.py:1659-1663 | clears what an earlier turn left and begins, if the registry accepts |
| AppServerClient.AppServerClient.FailStart | src/autonomous_math_research/app_server.py:1666-1725 | the three ways a request fails, each retiring the started id and finishing the turn |
| AppServerClient.AppServerClient.BindResponse | src/autonomous_math_research/app_server.py:1727-1752 | files one waiter under the active id and the thread, settled at once by a final response or a buffered completion |
| AppServerClient.AppServerClient.ReleaseTurn | src/autonomous_math_research/app_server.py:1783-1794 | unfiles the waiter, cancels it if pending and finishes the turn |
| AppServerClient.AppServerClient.ConcludeTurn | src/autonomous_math_research/app_server.py:1795-1856 | retires every id of the turn and returns its last message, usage and reroute, emptying their buffers |
| AppServerClient.AppServerClient.FailPending | src/autonomous_math_research/app_server.py:1452-1468 | every waiter still pending learns that the transport closed, no other future changes |
| AppServerTurns.RunKeepsInvariant | src/autonomous_math_research/app_server.py:1477-1804 | over every run on any threads each waiting call has one waiter, filed under its own turn and thread and shared with no other call, and no thread with a waiting call has a buffered completion |
| AppServerTurns.OnlyRequestsBuffer | src/autonomous_math_research/app_server.py:1569-1574 | only a thread whose request is out can gain a buffered completion |
| AppServerTheorems.SettledAtMostOnce | src/autonomous_math_research/app_server.py:1563-1568 | no outcome of a waiter is ever replaced |
| AppServerTheorems.HeardOutcome | src/autonomous_math_research/app_server.py:1560-1568 | a notification settles a waiting call exactly when it is a completion that reaches the call's thread |
| AppServerTheorems.NothingOlderSettlesIff | src/autonomous_math_research/app_server.py:1659-1752 | in every continuation a call is settled only by its own response, by a completion that reaches its thread after it opened or by a lost transport, exactly when it opens with no completion of its thread filed under a turn id |
| AppServerTheorems.StepPairedIff | src/autonomous_math_research/app_server.py:1569-1574 | a step leaves a completion filed under its turn but not under its thread exactly when a second turn of the thread completes while the first is buffered |
| AppServerTheorems.CallsOpenClean | src/autonomous_math_research/app_server.py:1659-1663 | while no completion displaces another, every call of every run opens clean |
| AppServerTheorems.SettledIff | src/autonomous_math_research/app_server.py:1537-1752 | in any order of notifications, response and second calls that lose nothing, a waiting call is settled exactly when a completion reached its thread since it opened, its response was final, or the transport closed while it waited |
| AppServerTheorems.StepDueIff | src/autonomous_math_research/app_server.py:1659-1663 | a step keeps what is due to a call exactly when it is not a second call on its thread while its request is out and a completion is buffered for it |
| AppServerOwnTurn.SettledByOwnTurnIff | src/autonomous_math_research/app_server.py:1499-1752 | in every continuation in which foreign ids of the thread may still be heard, a call is settled only by its own response, by a completion under one of its own ids or by a lost transport, exactly when those foreign ids are all retired |
| AppServerOwnTurn.EndRetiresIff | src/autonomous_math_research/app_server.py:1006-1804 | an end of a call leaves all its ids retired exactly when each was retired before or is one the end retires: the stream id heard by a failed request, the three names of an uncancelled wait, none of a cancelled one |
| AppServerOwnTurn.CallsSettleOwn | src/autonomous_math_research/app_server.py:1499-1804 | over every run in which no end on the thread leaves an id of its call behind, the next call of the thread is settled by its own turn only |
| AppServerTheorems.StaysUnindexed | src/autonomous_math_research/app_server.py:972-1004 | from the response on, and after the call, no completion is indexed under the thread until a call opens on it |
| AppServerTheorems.ResponseUnindexes | src/autonomous_math_research/app_server.py:1741-1752 | the response leaves no completion under the thread |
| AppServerRetirement.EndedTurnIsInert | src/autonomous_math_research/app_server.py:1499-1503 | after a turn ended, whatever runs on any thread, a late notification under any of its ids changes nothing |
| AppServerRetirement.SnapshotIsReply | src/autonomous_math_research/app_server.py:1545-1822 | a settling completion that carries agent messages is authoritative: the reply is its last message under its id, whatever was streamed before |
| AppServerReplies.UsageIsReply | src/autonomous_math_research/app_server.py:1529-1533 | token usage heard for the thread becomes the usage of the reply and changes nothing else of it |
| AppServerReplies.RerouteIsReply | src/autonomous_math_research/app_server.py:1534-1537 | a reroute heard for the thread becomes the reroute of the reply |
| AppServerReplies.TextIsReply | src/autonomous_math_research/app_server.py:1525-1528 | an agent message heard under the id the call would end under becomes the text of the reply |
| AppServerReplies.OthersLeaveReply | src/autonomous_math_research/app_server.py:1477-1575 | nothing heard about another thread changes the reply |
| AppServerReplies.RunAligned | src/autonomous_math_research/app_server.py:1504-1524 | from its response on and until it completes, the response id of a call stands for the id its turn was last started under |
| AppServerReplies.RunNoBlanks | src/autonomous_math_research/app_server.py:1006-1018 | no run retires the empty id, under which notifications without one arrive, or keeps a usage or reroute under no thread |
| AppServerReplies.FailureBuffers | src/autonomous_math_research/app_server.py:1666-1725 | a cancelled request leaves the buffer as it is, any other failure leaves nothing buffered for the thread; only a lost transport spends its telemetry |
| AppServerRetirement.EndedTurnStaysSpent | src/autonomous_math_research/app_server.py:1795-1831 | once a turn ended, no message and no usage is kept under any of its ids again, whatever runs on any thread |
| AppServerRetirement.EvictionSparesNewest | src/autonomous_math_research/app_server.py:1006-1018 | eviction keeps at most 4096 threads, never the newest one, and alters no entry it keeps |
| AppServerOwnTurn.AnyOrderSettles | src/autonomous_math_research/app_server.py:1477-1804 | one turn under two ids: whatever the order and repetition of its starts and completions around its response, and whatever other threads do, the call is settled by its response, a completion under its stream id or a lost transport, and nothing is recorded against the thread |
| AppServerLimits.StrandedCompletion | src/autonomous_math_research/app_server.py:1569-1574 | a legal run from the idle client after which a call can be settled by an older completion |
| AppServerLimits.CancelledCallExposesNext | src/autonomous_math_research/app_server.py:1758-1766 | a legal run from the idle client, with a call cancelled while it waits, after which the next call can be settled by the late completion of the cancelled one |
| AppServerLimits.FinalResponseExposesNext | src/autonomous_math_research/app_server.py:1744-1747 | the same with a call settled by a final response before its stream id was heard |
| AppServerLimits.FailedStartExposesNext | src/autonomous_math_research/app_server.py:1666-1725 | the same with a request that failed, for any of the three reasons, before its stream was heard |
| AppServerLimits.RefusedCallLosesCompletion | src/autonomous_math_research/app_server.py:1659-1663 | a legal run from the idle client after which a second call on the thread is refused only once it discarded the completion buffered for the first |
| AppServerLimits.RefusedCallKeepsReplyIff | src/autonomous_math_research/app_server.py:1659-1663 | refused while the first call waits, a second call leaves its reply as it was exactly when no reroute was recorded and either the outcome names a turn id, or no stream id other than the filed one was heard |
| AppServerLimits.RefusedCallTakesReply | src/autonomous_math_research/app_server.py:1659-1822 | a legal run from the idle client, without a reroute, after which a refused second call takes away the text and the turn id of the waiting one, and leaves its stream id to settle the next call |
| TerminalInput.TerminalInputParser.Feed | src/autonomous_math_research/monitor.py:1505-1547 | the loop drains the last 4096 characters of pending and new text, and keeps what must wait |
| TerminalInput.TerminalInputParser.TakeMouse | src/autonomous_math_research/monitor.py:1508-1524 | reads one mouse report, waits for an unfinished one, drops a character of a broken one |
| TerminalInput.TerminalInputParser.TakeKey | src/autonomous_math_research/monitor.py:1525-1546 | reads one key, waits for a split one, drops ordinary text |
| TerminalInput.FeedingIsReading | src/autonomous_math_research/monitor.py:1505-1547 | fed in any chunks that do not overflow, a text with ASCII digits gives the actions and pending text of reading it whole |
| TerminalInput.ChunkInvariantIff | src/autonomous_math_research/monitor.py:1482-1524 | the parser is chunk invariant exactly when the digits `\d` accepts are the ASCII ones, as in the unfinished-report pattern |
| TerminalCuts.FeedingIsReadingIff | src/autonomous_math_research/monitor.py:1482-1547 | fed in any chunks that do not overflow, whatever `\d` accepts, a text leaves the pending text of reading it whole and misses exactly one action for each cut that tears a mouse report after a digit that is not ASCII; so it is read the same exactly when no cut does |
| TerminalCuts.TwoPieces | src/autonomous_math_research/monitor.py:1505-1547 | the same for one cut of a text of any length |
| TerminalInput.MoveStable | src/autonomous_math_research/monitor.py:1508-1546 | once the parser consumes something, more text would not have changed its mind |
| TerminalInput.BrokenStaysBroken | src/autonomous_math_research/monitor.py:1509-1514 | a report that cannot be completed is never completed by later text |
| TerminalInput.ReportRoundTrip | src/autonomous_math_research/monitor.py:1482-1524 | a mouse report written with its button and position is read back as them, whatever follows |
| TerminalKeys.KeysScroll | src/autonomous_math_research/monitor.py:1483-1492 | which way each escape sequence scrolls, whatever follows it |
| TerminalKeys.WindowsKeysScroll | src/autonomous_math_research/monitor.py:1493-1546 | the same for the two-character keys of a Windows console |
| TerminalKeys.WheelScrolls | src/autonomous_math_research/monitor.py:1515-1524 | a wheel report with any modifiers scrolls three lines up or down, every other report is a pointer position |
| ChunkedReading.ChunksDoNotMatter | src/autonomous_math_research/monitor.py:1505-1547 | for any reader whose moves do not depend on later text, chunks do not matter |
| ChunkedReading.DrainSplits | src/autonomous_math_research/monitor.py:1505-1547 | draining a text is draining a first part, then what it left together with the rest |
| JsonlFollower.LoadEvents | src/autonomous_math_research/monitor.py:57-73 | the records of the terminated lines, or a raise exactly when one that is not blank does not decode |
| JsonlFollower.JsonlFollower.Initial | src/autonomous_math_research/monitor.py:671-681 | the last records of the first read, pending its unterminated tail |
| JsonlFollower.JsonlFollower.Poll | src/autonomous_math_research/monitor.py:2770-2782 | the records the new chunk completes, pending its tail; an empty chunk changes nothing |
| JsonlFollower.FollowerYields | src/autonomous_math_research/monitor.py:2760-2782 | however the file grows, a follower with a positive tail fails exactly when loading fails, and otherwise yields what loading yields without the first records its tail does not cover |
| JsonlFollower.FollowerYieldsAllIff | src/autonomous_math_research/monitor.py:671-681 | it yields exactly the loaded records if and only if the tail covers the first read |
| JsonlFollower.FollowerWithoutTail | src/autonomous_math_research/monitor.py:671-681 | without a tail it yields exactly what follows the complete lines of the first read |
| JsonlFollower.FollowingIsLoading | src/autonomous_math_research/monitor.py:2770-2782 | polling the chunks is loading their concatenation |
| JsonlFollower.SplitAppend | src/autonomous_math_research/monitor.py:60-66 | appending bytes keeps the complete lines and continues the tail |
| MarkdownState.ReplaceCases | src/autonomous_math_research/canonical_state.py:156-165 | a page without markers is left alone; the call raises exactly when there are markers but not one pair in order |
| MarkdownState.ReplaceThenExtract | src/autonomous_math_research/canonical_state.py:156-165 | every character outside the block is kept, the page is marked once again, and the block read back is the new one |
| MarkdownState.LastReplacementWins | src/autonomous_math_research/canonical_state.py:156-165 | of two replacements only the last one shows |
| MarkdownState.RenderedBlockIff | src/autonomous_math_research/canonical_state.py:141-153 | a rendered block has one begin marker at its start and one end marker at its end exactly when its payload contains neither marker |
| MarkdownState.RenderedStaysMarkedIff | src/autonomous_math_research/canonical_state.py:141-165 | after a rendered block is put in, the page can be replaced again exactly when the payload contains neither marker |
| MarkdownState.CountOneIff | src/autonomous_math_research/canonical_state.py:157-163 | counting exactly one marker means it stands at one position only |
| MarkdownState.NoStraddle | src/autonomous_math_research/canonical_state.py:16-17 | no marker stands across the seam of a block |
| MarkdownState.MarkedSpan | src/autonomous_math_research/canonical_state.py:207-217 | in a marked page the extraction spans the begin marker to the end marker |

## Left out

- Process launch, stdio, permission profiles, model catalogs and probes, `steer` and `interrupt` requests: input and output of other processes.
- Secret redaction, path-escape and symbolic-link checks: paths are taken as normalised names.
- JSON encoding, timestamps, torn appends and `fsync`: records are values and writes are atomic.
- Legacy schema-v1 transition records, and the type and format checks of single record fields.
- Concurrent writers to the canonical store: the code takes no lock, one controller is assumed.
- Configuration, provider, profile and policy validation, prompts, initializer, launcher, rendering and dashboard code.
- `_SgrMouseParser`: it is not on the live input path.
- `reconciliation.py`, `native_handoff.py`, `contracts.py`, `reasoning_health.py`, catalog and outcome writing.
- Claims, candidate states and waiters are values in the maps of their class: aliasing between Python objects is not captured, except the identity of buffered completions, which is their arrival number.
- The dictionary `canonical_dependency_shape` returns is not built; only what it resolves to and when it raises.
- The hash in obligation ids is a function parameter of the graph, `naming`; its freshness is a hypothesis of `MarkKeepsValidIff` and `RunKeepsValid`.
- White space in statements is the ASCII white space; case is left as it is.
- The terminal transition guard and the experiment adapter are parameters: any answer is possible.
- Argument materialisation, scratch directories, environment provenance and receipts of an experiment; edits to a run directory by others.
- `on_started` callbacks and the handler that notifications are forwarded to.
- The text of errors: a raise is an error value or a missing result, with the state as the source leaves it.
- ClaimGraph.ClaimGraph.PruneFailed: checks that every claim resolves before its loop, where the source raises from within it; nothing is written before, so only the moment differs.
- AppServerRetirement.EndedTurnIsInert: says nothing of a call cancelled while it waits, because the source does not retire its ids then.
- Notifications that name a turn and no thread: the source looks for a waiter under the turn id alone and buffers the completion under it alone. In the model a turn id belongs to the thread that messages about it name, so such a message is about no call.
