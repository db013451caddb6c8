/** What every mix of recorded and discarded audits keeps, and what it hands to the claim graph. */
module AuditGateTheorems {
  import opened Prelude
  import opened Models
  import opened DomainSemantics
  import opened ClaimGraphModel
  import opened ClaimGraphOps
  import opened AuditGate
  import ClaimGraphTheorems

  predicate NoReject(results: seq<AuditResult>) {
    forall i :: 0 <= i < |results| ==> results[i].verdict != REJECT
  }

  /** A rejection is unique and last. */
  predicate RejectIsLast(results: seq<AuditResult>) {
    results == [] || NoReject(results[..|results| - 1])
  }

  /** No two audits share an id or a named thread. */
  predicate Independent(results: seq<AuditResult>) {
    forall i, j :: 0 <= i < j < |results| ==> Apart(results[i], results[j])
  }

  /** Different audits, by different threads as far as both are named. */
  predicate Apart(a: AuditResult, b: AuditResult) {
    && a.auditId != b.auditId
    && (a.thread.Some? && b.thread.Some? && a.thread.value != "" ==> a.thread.value != b.thread.value)
  }

  lemma ApartIff(a: AuditResult, b: AuditResult)
    ensures Apart(a, b) <==> a.auditId != b.auditId && !SameThread(b, a)
  {
  }

  /** A clean pass: at least one check, every check passed, and no gap. */
  predicate CleanPass(r: AuditResult) {
    r.checks != [] && r.gaps == [] && false !in r.checks
  }

  /** The level is not E5, and no higher than the proposed one but for an evaluator's redundant exact check of an exact
      test. */
  predicate LevelEarned(event: Event, r: AuditResult) {
    && r.evidence != E5_FORMAL
    && (Rank(r.evidence) > Rank(event.proposed) ==>
          event.proposed == E2_EXACT_TESTED && r.evidence == E3_REDUNDANT_EXACT && r.kind == IndependentEvaluator)
  }

  /** The pass is clean, for an event of the domain, at no less than its minimal level. */
  predicate GoodPass(domain: Domain, event: Event, r: AuditResult) {
    && CleanPass(r)
    && EventTransition(domain, event.eventType).Some?
    && Rank(r.evidence) >= Rank(EventTransition(domain, event.eventType).value.minEvidence)
  }

  /** The kind of audit the event calls for first, and the one it calls for later. */
  function KindFor(domain: Domain, t: EventType, first: bool): AuditKind {
    if RequiresEvaluator(domain, t) || t in {COMPUTATIONAL_COLLISION, COMPUTATIONAL_PATTERN} then IndependentEvaluator
    else if t in {COUNTEREXAMPLE, KEY_REFUTATION} then (if first then CounterexampleCheck else IndependentEvaluator)
    else if first then Proof
    else Adversarial
  }

  /** Every result checked the event's statement in a kind of audit the event calls for, at an earned level, and every
      pass is a good one. */
  predicate ResultsSound(domain: Domain, event: Event, results: seq<AuditResult>) {
    forall r :: r in results ==>
      && SameText(r.statement, event.statement)
      && r.kind in {KindFor(domain, event.eventType, true), KindFor(domain, event.eventType, false)}
      && LevelEarned(event, r)
      && (r.verdict == PASS ==> GoodPass(domain, event, r))
  }

  /** The flag and the label say what the results say. */
  predicate Labelled(s: AuditState) {
    && (s.required == 0 ==> s.results == [] && !s.terminal)
    && (s.required > 0 ==> (s.terminal <==> Rejected(s.results) || Passes(s.results) >= s.required))
    && (if s.terminal then s.trust == if Rejected(s.results) then Trust.REJECTED else AUDITED_NIGHTLY
        else s.trust == Trust.AUDIT_PENDING || (s.trust == AUDIT_1_PASS && Passes(s.results) > 0))
  }

  predicate GateInvariant(domain: Domain, s: AuditState) {
    && Passes(s.results) <= s.required
    && RejectIsLast(s.results)
    && Independent(s.results)
    && ResultsSound(domain, s.event, s.results)
    && Labelled(s)
  }

  // ---------- recording ----------

  lemma PassesNext(results: seq<AuditResult>, r: AuditResult)
    ensures Passes(results + [r]) == Passes(results) + if r.verdict == PASS then 1 else 0
  {
    assert (results + [r])[..|results|] == results;
  }

  lemma RejectedNext(results: seq<AuditResult>, r: AuditResult)
    ensures Rejected(results + [r]) <==> Rejected(results) || r.verdict == REJECT
  {
    if Rejected(results) {
      var i :| 0 <= i < |results| && results[i].verdict == REJECT;
      assert (results + [r])[i].verdict == REJECT;
    }
    if r.verdict == REJECT {
      assert (results + [r])[|results|].verdict == REJECT;
    }
  }

  lemma IndependentNext(results: seq<AuditResult>, r: AuditResult)
    requires Independent(results)
    requires forall i :: 0 <= i < |results| ==> results[i].auditId != r.auditId && !SameThread(r, results[i])
    ensures Independent(results + [r])
  {
    forall i | 0 <= i < |results| ensures Apart(results[i], r) {
      ApartIff(results[i], r);
    }
  }

  /** The clauses of `record` that look at the new result alone. */
  lemma RecordableSound(domain: Domain, s: AuditState, r: AuditResult)
    requires Recordable(domain, s, r)
    ensures ResultsSound(domain, s.event, [r])
  {
    NextKindIs(domain, s);
    SoundAlone(domain, s, r);
  }

  lemma NextKindIs(domain: Domain, s: AuditState)
    ensures NextAuditKind(domain, s) ==
            if s.terminal || Passes(s.results) >= s.required then None
            else Some(KindFor(domain, s.event.eventType, s.results == []))
  {
  }

  lemma SoundNext(domain: Domain, event: Event, results: seq<AuditResult>, r: AuditResult)
    requires ResultsSound(domain, event, results) && ResultsSound(domain, event, [r])
    ensures ResultsSound(domain, event, results + [r])
  {
    assert r in [r];
    assert forall x :: x in results + [r] <==> x in results || x == r;
  }

  lemma RejectNext(results: seq<AuditResult>, r: AuditResult)
    requires !Rejected(results)
    ensures RejectIsLast(results + [r])
  {
    assert (results + [r])[..|results|] == results;
  }

  lemma LabelNext(domain: Domain, s: AuditState, r: AuditResult)
    requires Labelled(s) && Passes(s.results) <= s.required && NextAuditKind(domain, s).Some?
    ensures Labelled(WithResult(s, r)) && Passes(WithResult(s, r).results) <= s.required && !Rejected(s.results)
  {
    PassesNext(s.results, r);
    RejectedNext(s.results, r);
  }

  lemma RecordKeeps(domain: Domain, s: AuditState, r: AuditResult)
    requires GateInvariant(domain, s) && Recordable(domain, s, r)
    ensures GateInvariant(domain, WithResult(s, r))
  {
    LabelNext(domain, s, r);
    RejectNext(s.results, r);
    IndependentNext(s.results, r);
    RecordableSound(domain, s, r);
    SoundNext(domain, s.event, s.results, r);
  }

  // ---------- discarding ----------

  lemma {:induction false} WithoutElements(results: seq<AuditResult>, ids: set<string>)
    ensures forall r :: r in Without(results, ids) <==> r in results && r.auditId !in ids
    ensures Passes(Without(results, ids)) <= Passes(results)
  {
    if results != [] {
      var n := |results| - 1;
      assert results == results[..n] + [results[n]];
      WithoutElements(results[..n], ids);
      PassesNext(Without(results[..n], ids), results[n]);
    }
  }

  lemma IndependentLonger(results: seq<AuditResult>, r: AuditResult)
    requires Independent(results) && forall i :: 0 <= i < |results| ==> Apart(results[i], r)
    ensures Independent(results + [r])
  {
    var longer := results + [r];
    forall i, j | 0 <= i < j < |longer| ensures Apart(longer[i], longer[j]) {
      if j < |results| {
        assert longer[i] == results[i] && longer[j] == results[j];
      }
    }
  }

  lemma {:induction false} WithoutIndependent(results: seq<AuditResult>, ids: set<string>)
    requires Independent(results)
    ensures Independent(Without(results, ids))
  {
    if results != [] {
      var n := |results| - 1;
      WithoutIndependent(results[..n], ids);
      WithoutElements(results[..n], ids);
      var kept := Without(results[..n], ids);
      forall i | 0 <= i < |kept| ensures Apart(kept[i], results[n]) {
        assert kept[i] in kept;
        var j :| 0 <= j < n && results[j] == kept[i];
        assert Apart(results[j], results[n]);
      }
      if results[n].auditId !in ids {
        IndependentLonger(kept, results[n]);
      }
    }
  }

  lemma WithoutRejectIsLast(results: seq<AuditResult>, ids: set<string>)
    requires RejectIsLast(results)
    ensures RejectIsLast(Without(results, ids))
  {
    if results != [] {
      var n := |results| - 1;
      var kept := Without(results[..n], ids);
      WithoutElements(results[..n], ids);
      forall i | 0 <= i < |kept| ensures kept[i].verdict != REJECT {
        assert kept[i] in kept;
      }
      if results[n].auditId !in ids {
        assert Without(results, ids)[..|kept|] == kept;
      } else if kept != [] {
        assert NoReject(kept[..|kept| - 1]);
      }
    }
  }

  lemma {:induction false} PassesInFacts(results: seq<AuditResult>, ids: set<string>)
    ensures forall r :: r in PassesIn(results, ids) ==> r in results && r.verdict == PASS
  {
    if results != [] {
      PassesInFacts(results[..|results| - 1], ids);
    }
  }

  /** Discarding passes keeps a rejection. */
  lemma RejectionSurvives(s: AuditState, ids: set<string>)
    requires Independent(s.results)
    ensures Rejected(s.results) <==> Rejected(Without(s.results, AuditIds(PassesIn(s.results, ids))))
  {
    var gone := AuditIds(PassesIn(s.results, ids));
    PassesInFacts(s.results, ids);
    WithoutElements(s.results, gone);
    var kept := Without(s.results, gone);
    if Rejected(s.results) {
      var i :| 0 <= i < |s.results| && s.results[i].verdict == REJECT;
      assert s.results[i] in kept;
    }
    if Rejected(kept) {
      var i :| 0 <= i < |kept| && kept[i].verdict == REJECT;
      assert kept[i] in kept;
    }
  }

  lemma RecomputedLabelled(s: AuditState)
    requires s.required > 0
    ensures Labelled(Recomputed(s))
  {
  }

  lemma SoundWithout(domain: Domain, event: Event, results: seq<AuditResult>, ids: set<string>)
    requires ResultsSound(domain, event, results)
    ensures ResultsSound(domain, event, Without(results, ids))
  {
    WithoutElements(results, ids);
  }

  lemma DiscardKeeps(domain: Domain, s: AuditState, ids: set<string>)
    requires GateInvariant(domain, s)
    ensures GateInvariant(domain, Discarded(s, ids))
  {
    var gone := AuditIds(PassesIn(s.results, ids));
    if PassesIn(s.results, ids) != [] {
      WithoutElements(s.results, gone);
      WithoutIndependent(s.results, gone);
      WithoutRejectIsLast(s.results, gone);
      SoundWithout(domain, s.event, s.results, gone);
      RecomputedLabelled(s.(results := Without(s.results, gone)));
      assert Discarded(s, ids).results == Without(s.results, gone);
    }
  }

  // ---------- runs ----------

  datatype GateOp = RecordOp(result: AuditResult) | DiscardOp(ids: set<string>)

  function GateStep(domain: Domain, s: AuditState, op: GateOp): AuditState {
    match op
    case RecordOp(r) => if Recordable(domain, s, r) then WithResult(s, r) else s
    case DiscardOp(ids) => Discarded(s, ids)
  }

  function GateRun(domain: Domain, s: AuditState, ops: seq<GateOp>): AuditState {
    if ops == [] then s else GateStep(domain, GateRun(domain, s, ops[..|ops| - 1]), ops[|ops| - 1])
  }

  function Registered(event: Event, required: nat): AuditState {
    AuditState(event, required, [], Trust.AUDIT_PENDING, false)
  }

  lemma GateStepKeeps(domain: Domain, s: AuditState, op: GateOp)
    requires GateInvariant(domain, s)
    ensures var next := GateStep(domain, s, op);
            GateInvariant(domain, next) && next.event == s.event && next.required == s.required
  {
    match op
    case RecordOp(r) => if Recordable(domain, s, r) { RecordKeeps(domain, s, r); }
    case DiscardOp(ids) => DiscardKeeps(domain, s, ids);
  }

  /** Every mix of `record` and `discard_pass_results` keeps the gate's invariant. */
  lemma {:induction false} GateRunInvariant(domain: Domain, event: Event, required: nat, ops: seq<GateOp>)
    ensures var s := GateRun(domain, Registered(event, required), ops);
            GateInvariant(domain, s) && s.event == event && s.required == required
  {
    if ops != [] {
      GateRunInvariant(domain, event, required, ops[..|ops| - 1]);
      GateStepKeeps(domain, GateRun(domain, Registered(event, required), ops[..|ops| - 1]), ops[|ops| - 1]);
    }
  }

  /** `_recompute_state` agrees with the recorded state on the terminal flag and on a terminal label, and disagrees on
      the label exactly when a pass is hidden behind a later unresolved audit. */
  lemma RecomputeAgrees(domain: Domain, event: Event, required: nat, ops: seq<GateOp>)
    requires required > 0
    ensures var s := GateRun(domain, Registered(event, required), ops);
            && Recomputed(s).terminal == s.terminal
            && (s.terminal ==> Recomputed(s) == s)
            && (Recomputed(s) != s <==> !s.terminal && s.trust == Trust.AUDIT_PENDING && Passes(s.results) > 0)
  {
    GateRunInvariant(domain, event, required, ops);
  }

  /** A candidate that requires no audit never accepts one and never becomes terminal. */
  lemma UnauditedStaysPending(domain: Domain, event: Event, ops: seq<GateOp>)
    ensures GateRun(domain, Registered(event, 0), ops) == Registered(event, 0)
  {
    GateRunInvariant(domain, event, 0, ops);
    assert Passes([]) == 0;
  }

  // ---------- exactly what is recorded ----------

  /** In every reachable state `record` accepts exactly a result that is independent of those recorded, checked the
      event's statement in the kind of audit that is due, at an earned level and, if it passes, with a good pass, while
      nothing rejected the candidate and passes are missing. */
  lemma RecordedIff(domain: Domain, event: Event, required: nat, ops: seq<GateOp>, r: AuditResult)
    ensures var s := GateRun(domain, Registered(event, required), ops);
            Recordable(domain, s, r) <==>
              && !Rejected(s.results) && Passes(s.results) < required
              && SameText(r.statement, event.statement)
              && r.kind == KindFor(domain, event.eventType, s.results == [])
              && Independent(s.results + [r])
              && LevelEarned(event, r) && (r.verdict == PASS ==> GoodPass(domain, event, r))
  {
    GateRunInvariant(domain, event, required, ops);
    var s := GateRun(domain, Registered(event, required), ops);
    NextKindIs(domain, s);
    IndependentIff(s.results, r);
    SoundAlone(domain, s, r);
  }

  lemma IndependentIff(results: seq<AuditResult>, r: AuditResult)
    requires Independent(results)
    ensures Independent(results + [r]) <==>
              forall i :: 0 <= i < |results| ==> results[i].auditId != r.auditId && !SameThread(r, results[i])
  {
    var longer := results + [r];
    forall i | 0 <= i < |results| ensures Apart(results[i], r) <==> results[i].auditId != r.auditId && !SameThread(r, results[i]) {
      ApartIff(results[i], r);
    }
    if Independent(longer) {
      forall i | 0 <= i < |results| ensures Apart(results[i], r) {
        assert longer[i] == results[i] && longer[|results|] == r;
      }
    } else if forall i :: 0 <= i < |results| ==> Apart(results[i], r) {
      IndependentLonger(results, r);
    }
  }

  lemma SoundAlone(domain: Domain, s: AuditState, r: AuditResult)
    ensures EvidenceAllowed(s.event, r) <==> LevelEarned(s.event, r)
    ensures (r.checks != [] && r.gaps == [] && forall c :: c in r.checks ==> c) <==> CleanPass(r)
    ensures TransitionFor(domain, s.event.eventType, r.evidence).Some? <==>
              EventTransition(domain, s.event.eventType).Some?
              && Rank(r.evidence) >= Rank(EventTransition(domain, s.event.eventType).value.minEvidence)
  {
  }

  /** Without discards the first audit is of the kind that is due first, and every later one of the other. */
  lemma {:induction false} KindsInOrder(domain: Domain, event: Event, required: nat, ops: seq<GateOp>)
    requires forall op :: op in ops ==> op.RecordOp?
    ensures var s := GateRun(domain, Registered(event, required), ops);
            s.event == event
            && forall i :: 0 <= i < |s.results| ==> s.results[i].kind == KindFor(domain, event.eventType, i == 0)
  {
    if ops != [] {
      KindsInOrder(domain, event, required, ops[..|ops| - 1]);
      NextKindIs(domain, GateRun(domain, Registered(event, required), ops[..|ops| - 1]));
    }
  }

  /** What `discard_pass_results` keeps: all but the named passes. */
  function Kept(results: seq<AuditResult>, ids: set<string>): seq<AuditResult> {
    if results == [] then [] else
      var r := results[|results| - 1];
      Kept(results[..|results| - 1], ids) + if r.verdict == PASS && r.auditId in ids then [] else [r]
  }

  lemma {:induction false} WithoutIsKept(all: seq<AuditResult>, n: nat, ids: set<string>)
    requires Independent(all) && n <= |all|
    ensures Without(all[..n], AuditIds(PassesIn(all, ids))) == Kept(all[..n], ids)
  {
    if n > 0 {
      WithoutIsKept(all, n - 1, ids);
      assert all[..n][..n - 1] == all[..n - 1];
      NamedPass(all, n - 1, ids);
    }
  }

  /** Ids being distinct, a result goes exactly if it is a named pass itself. */
  lemma NamedPass(all: seq<AuditResult>, i: nat, ids: set<string>)
    requires Independent(all) && i < |all|
    ensures all[i].auditId in AuditIds(PassesIn(all, ids)) <==> all[i].verdict == PASS && all[i].auditId in ids
  {
    PassesInAre(all, ids);
    if all[i].auditId in AuditIds(PassesIn(all, ids)) {
      var r :| r in PassesIn(all, ids) && r.auditId == all[i].auditId;
      var j :| 0 <= j < |all| && all[j] == r;
      OneOfItsId(all, i, j);
    }
  }

  lemma OneOfItsId(all: seq<AuditResult>, i: nat, j: nat)
    requires Independent(all) && i < |all| && j < |all| && all[i].auditId == all[j].auditId
    ensures i == j
  {
    if i < j {
      ApartAt(all, i, j);
    } else if j < i {
      ApartAt(all, j, i);
    }
  }

  lemma ApartAt(all: seq<AuditResult>, i: nat, j: nat)
    requires Independent(all) && i < j < |all|
    ensures Apart(all[i], all[j])
  {
  }

  lemma {:induction false} PassesInAre(results: seq<AuditResult>, ids: set<string>)
    ensures forall r :: r in PassesIn(results, ids) <==> r in results && r.verdict == PASS && r.auditId in ids
  {
    if results != [] {
      assert results == results[..|results| - 1] + [results[|results| - 1]];
      PassesInAre(results[..|results| - 1], ids);
    }
  }

  lemma {:induction false} KeptAll(results: seq<AuditResult>, ids: set<string>)
    requires forall r :: r in results ==> !(r.verdict == PASS && r.auditId in ids)
    ensures Kept(results, ids) == results
  {
    if results != [] {
      assert results == results[..|results| - 1] + [results[|results| - 1]];
      KeptAll(results[..|results| - 1], ids);
    }
  }

  lemma DiscardedKeeps(s: AuditState, ids: set<string>)
    requires Independent(s.results)
    ensures Discarded(s, ids).results == Kept(s.results, ids)
  {
    WithoutIsKept(s.results, |s.results|, ids);
    assert s.results[..|s.results|] == s.results;
    PassesInAre(s.results, ids);
    if PassesIn(s.results, ids) == [] {
      forall r | r in s.results ensures !(r.verdict == PASS && r.auditId in ids) {
        assert r !in PassesIn(s.results, ids);
      }
      KeptAll(s.results, ids);
    } else {
      RecomputedResults(s.(results := Without(s.results, AuditIds(PassesIn(s.results, ids)))));
    }
  }

  lemma RecomputedResults(s: AuditState)
    ensures Recomputed(s).results == s.results && Recomputed(s).event == s.event && Recomputed(s).required == s.required
  {
  }

  lemma Appends(s: AuditState, r: AuditResult)
    ensures WithResult(s, r).results == s.results + [r]
  {
  }

  /** The results one operation leaves. */
  predicate Leaves(domain: Domain, s: AuditState, op: GateOp, results: seq<AuditResult>) {
    match op
    case RecordOp(r) => results == if Recordable(domain, s, r) then s.results + [r] else s.results
    case DiscardOp(ids) => results == Kept(s.results, ids)
  }

  lemma StepLeaves(domain: Domain, s: AuditState, op: GateOp)
    requires Independent(s.results)
    ensures Leaves(domain, s, op, GateStep(domain, s, op).results)
  {
    match op
    case RecordOp(r) => Appends(s, r);
    case DiscardOp(ids) => DiscardedKeeps(s, ids);
  }

  /** In every reachable state a recorded result is appended, and a discard removes exactly the named passes. */
  lemma ResultsAfter(domain: Domain, event: Event, required: nat, ops: seq<GateOp>, op: GateOp)
    ensures var s := GateRun(domain, Registered(event, required), ops);
            Leaves(domain, s, op, GateStep(domain, s, op).results)
  {
    GateRunInvariant(domain, event, required, ops);
    StepLeaves(domain, GateRun(domain, Registered(event, required), ops), op);
  }

  /** The last operation that changed the results recorded an UNRESOLVED. */
  predicate Unresolved(domain: Domain, s: AuditState, ops: seq<GateOp>) {
    ops != [] &&
    var n := |ops| - 1;
    var before := GateRun(domain, s, ops[..n]);
    match ops[n]
    case RecordOp(r) => if Recordable(domain, before, r) then r.verdict == UNRESOLVED else Unresolved(domain, s, ops[..n])
    case DiscardOp(ids) => PassesIn(before.results, ids) == [] && Unresolved(domain, s, ops[..n])
  }

  /** A candidate still open carries AUDIT_1_PASS exactly when it has a pass and its last change was not an UNRESOLVED. */
  lemma {:induction false} OpenLabelIs(domain: Domain, event: Event, required: nat, ops: seq<GateOp>)
    ensures var s := GateRun(domain, Registered(event, required), ops);
            !s.terminal ==>
              s.trust == if Passes(s.results) > 0 && !Unresolved(domain, Registered(event, required), ops)
                         then AUDIT_1_PASS else Trust.AUDIT_PENDING
  {
    if ops != [] {
      var before := GateRun(domain, Registered(event, required), ops[..|ops| - 1]);
      OpenLabelIs(domain, event, required, ops[..|ops| - 1]);
      GateRunInvariant(domain, event, required, ops[..|ops| - 1]);
      LabelAfter(domain, before, ops[|ops| - 1]);
    }
  }

  lemma LabelAfterRecord(domain: Domain, s: AuditState, r: AuditResult)
    requires GateInvariant(domain, s) && Recordable(domain, s, r)
    ensures var next := WithResult(s, r);
            && (!next.terminal ==> next.trust == if r.verdict == UNRESOLVED then Trust.AUDIT_PENDING else AUDIT_1_PASS)
            && (r.verdict == PASS ==> Passes(next.results) > 0)
  {
    PassesNext(s.results, r);
  }

  lemma LabelAfterDiscard(s: AuditState, ids: set<string>)
    ensures var next := Discarded(s, ids);
            if PassesIn(s.results, ids) == [] then next == s
            else !next.terminal ==> next.trust == if Passes(next.results) > 0 then AUDIT_1_PASS else Trust.AUDIT_PENDING
  {
  }

  /** The label of an open candidate after one operation. */
  lemma LabelAfter(domain: Domain, s: AuditState, op: GateOp)
    requires GateInvariant(domain, s)
    ensures var next := GateStep(domain, s, op);
            !next.terminal ==>
              match op
              case RecordOp(r) =>
                if Recordable(domain, s, r)
                then next.trust == if r.verdict == UNRESOLVED then Trust.AUDIT_PENDING else AUDIT_1_PASS
                else next == s
              case DiscardOp(ids) =>
                if PassesIn(s.results, ids) == [] then next == s
                else next.trust == if Passes(next.results) > 0 then AUDIT_1_PASS else Trust.AUDIT_PENDING
    ensures op.RecordOp? && Recordable(domain, s, op.result) && op.result.verdict == PASS ==>
              Passes(GateStep(domain, s, op).results) > 0
  {
    match op
    case RecordOp(r) => if Recordable(domain, s, r) { LabelAfterRecord(domain, s, r); }
    case DiscardOp(ids) => LabelAfterDiscard(s, ids);
  }

  /** How many audits a candidate needs: two if it is critical and such candidates are audited twice, else one if its
      impact reaches the threshold or its domain is not mathematics, else none. */
  lemma RequiredAuditsIs(domain: Domain, threshold: Impact, criticalDoubleAudit: bool, event: Event)
    ensures var n := RequiredAudits(domain, threshold, criticalDoubleAudit, event);
            && n <= 2
            && (n == 2 <==> event.impact == CRITICAL && criticalDoubleAudit)
            && (n == 0 <==> domain.MathResearch? && !(event.impact == CRITICAL && criticalDoubleAudit)
                            && ImpactRank(event.impact) < ImpactRank(threshold))
  {
  }

  // ---------- what reaches the claim graph ----------

  lemma {:induction false} LowestIsLowest(levels: seq<Evidence>)
    requires levels != []
    ensures LowestOf(levels) in levels && forall e :: e in levels ==> Rank(LowestOf(levels)) <= Rank(e)
  {
    if |levels| > 1 {
      var n := |levels| - 1;
      assert levels == levels[..n] + [levels[n]];
      LowestIsLowest(levels[..n]);
    }
  }

  lemma {:induction false} PassingEvidenceFacts(results: seq<AuditResult>)
    ensures |PassingEvidence(results)| == Passes(results)
    ensures forall e :: e in PassingEvidence(results) ==>
              exists r :: r in results && r.verdict == PASS && r.evidence == e
  {
    if results != [] {
      var n := |results| - 1;
      PassingEvidenceFacts(results[..n]);
      forall e | e in PassingEvidence(results)
        ensures exists r :: r in results && r.verdict == PASS && r.evidence == e
      {
        if e in PassingEvidence(results[..n]) {
          var r :| r in results[..n] && r.verdict == PASS && r.evidence == e;
          assert r in results;
        } else {
          assert results[n] in results;
        }
      }
    }
  }

  /** When the gate reports AUDITED_NIGHTLY there are as many passes as required and no rejection, every pass is clean
      and of the event's statement, the lowest verified level meets the event's domain minimum, is not E5, and
      exceeds the proposed level only by the evaluator's E2 to E3 upgrade. */
  lemma AuditedEvidence(domain: Domain, event: Event, required: nat, ops: seq<GateOp>)
    ensures var s := GateRun(domain, Registered(event, required), ops);
            var verified := VerifiedEvidence(s);
            s.trust == AUDITED_NIGHTLY ==>
              && Passes(s.results) == required && required > 0 && !Rejected(s.results)
              && (forall r :: r in s.results && r.verdict == PASS ==>
                    SameText(r.statement, event.statement) && GoodPass(domain, event, r))
              && TransitionFor(domain, event.eventType, verified).Some?
              && verified != E5_FORMAL
              && (Rank(verified) <= Rank(event.proposed)
                  || (event.proposed == E2_EXACT_TESTED && verified == E3_REDUNDANT_EXACT))
  {
    GateRunInvariant(domain, event, required, ops);
    var s := GateRun(domain, Registered(event, required), ops);
    if s.trust == AUDITED_NIGHTLY {
      PassingEvidenceFacts(s.results);
      LowestIsLowest(PassingEvidence(s.results));
      var r :| r in s.results && r.verdict == PASS && r.evidence == VerifiedEvidence(s);
    }
  }

  /** Only a representation bridge changes nothing. */
  lemma BridgeChangesNothing(domain: Domain, t: EventType)
    ensures var transition := EventTransition(domain, t);
            transition.Some? ==>
              && (t == REPRESENTATION_BRIDGE <==> transition.value.status.None? && !transition.value.trustChange)
              && (t != REPRESENTATION_BRIDGE ==> transition.value.trustChange)
  {
  }

  lemma StatusKeepsTrustAndEvidence(domain: Domain, claim: Claim, next: Status, event: Event)
    ensures WithStatus(domain, claim, next, event).trust == claim.trust
    ensures WithStatus(domain, claim, next, event).evidence == claim.evidence
  {
  }

  /** What applying a transition does, apart from the status. */
  lemma TransitionApplies(domain: Domain, claim: Claim, event: Event, transition: Transition, verified: Evidence,
                          guardAllows: bool)
    ensures var outcome := ApplyTransition(domain, claim, event, transition, verified, guardAllows);
            var bridge := transition.status.None? && !transition.trustChange;
            && (outcome.Raised? <==> !bridge && Forbidden(domain, claim, transition.status, guardAllows))
            && (outcome.NoChange? <==> bridge)
            && (outcome.Updated? ==>
                  && (transition.trustChange ==> outcome.claim.trust == AUDITED_NIGHTLY)
                  && (outcome.claim.evidence == claim.evidence || outcome.claim.evidence == verified))
  {
    if transition.status.Some? {
      StatusKeepsTrustAndEvidence(domain, WithEvidence(claim, transition, event, verified), transition.status.value,
                                  event);
    }
  }

  /** With enough passes a verdict raises exactly when the domain does not know the event, its evidence is below the
      event's minimum, or the polarity check or the guard forbids it. */
  lemma PassRaisesIff(domain: Domain, claim: Claim, event: Event, passes: int, required: int, verified: Evidence,
                      guardAllows: bool)
    requires passes >= required
    ensures AuditPass(domain, claim, event, passes, required, verified, guardAllows).Raised? <==>
              var known := EventTransition(domain, event.eventType);
              || known.None?
              || Rank(verified) < Rank(known.value.minEvidence)
              || Forbidden(domain, claim, known.value.status, guardAllows)
  {
    var known := EventTransition(domain, event.eventType);
    if known.Some? {
      BridgeChangesNothing(domain, event.eventType);
      TransitionApplies(domain, claim, event, known.value, verified, guardAllows);
    }
  }

  /** From gate to graph: applying an AUDITED_NIGHTLY verdict raises only if the polarity check or the guard forbids it,
      and never raises a claim to E5. */
  lemma AuditedVerdictApplies(domain: Domain, event: Event, required: nat, ops: seq<GateOp>, claim: Claim,
                              guardAllows: bool)
    ensures var s := GateRun(domain, Registered(event, required), ops);
            var transition := EventTransition(domain, event.eventType);
            var outcome := AuditPass(domain, claim, event, Passes(s.results), required, VerifiedEvidence(s), guardAllows);
            s.trust == AUDITED_NIGHTLY ==>
              && transition.Some?
              && (outcome.Raised? <==> Forbidden(domain, claim, transition.value.status, guardAllows))
              && (outcome.NoChange? <==> event.eventType == REPRESENTATION_BRIDGE)
              && (outcome.Updated? ==>
                    && outcome.claim.trust == AUDITED_NIGHTLY
                    && (outcome.claim.evidence == E5_FORMAL ==> claim.evidence == E5_FORMAL))
  {
    AuditedEvidence(domain, event, required, ops);
    var s := GateRun(domain, Registered(event, required), ops);
    if s.trust == AUDITED_NIGHTLY {
      var transition := TransitionFor(domain, event.eventType, VerifiedEvidence(s)).value;
      BridgeChangesNothing(domain, event.eventType);
      TransitionApplies(domain, claim, event, transition, VerifiedEvidence(s), guardAllows);
    }
  }

  // ---------- over whole runs of the graph ----------

  /** The verdict is one the gate reported as AUDITED_NIGHTLY. */
  predicate FromGate(domain: Domain, op: GraphOp, required: nat, ops: seq<GateOp>)
    requires op.Pass?
  {
    var s := GateRun(domain, Registered(op.event, required), ops);
    && s.trust == AUDITED_NIGHTLY
    && op.passes == Passes(s.results) && op.required == required && op.verified == VerifiedEvidence(s)
  }

  ghost predicate Gated(domain: Domain, op: GraphOp) {
    op.Pass? ==> exists required, ops :: FromGate(domain, op, required, ops)
  }

  /** Every claim at E5 was at E5 before. */
  predicate NoNewE5(before: Claims, after: Claims) {
    forall c :: c in after && after[c].evidence == E5_FORMAL ==> c in before && before[c].evidence == E5_FORMAL
  }

  lemma StepNoNewE5(domain: Domain, naming: Naming, claims: Claims, op: GraphOp)
    requires Gated(domain, op)
    ensures NoNewE5(claims, Step(domain, naming, claims, op))
  {
    match op
    case Mark(event) => ClaimGraphTheorems.NewClaimIs(domain, event, naming);
    case Pass(event, passes, required, verified, guardAllows) =>
      var req, ops :| FromGate(domain, op, req, ops);
      if event.claimId in claims {
        AuditedVerdictApplies(domain, event, req, ops, claims[event.claimId], guardAllows);
      }
    case Reject(event) =>
  }

  /** No run of candidates, gated verdicts and rejections raises a claim to E5. */
  lemma {:induction false} GatedRunNeverReachesE5(domain: Domain, naming: Naming, claims: Claims, ops: seq<GraphOp>)
    requires forall op :: op in ops ==> Gated(domain, op)
    ensures NoNewE5(claims, Run(domain, naming, claims, ops))
  {
    if ops != [] {
      GatedRunNeverReachesE5(domain, naming, claims, ops[..|ops| - 1]);
      StepNoNewE5(domain, naming, Run(domain, naming, claims, ops[..|ops| - 1]), ops[|ops| - 1]);
    }
  }
}
