/** `AuditGate`: recording, discarding and recomputing independent audits of a candidate. */
module AuditGate {
  import opened Prelude
  import opened Models
  import opened DomainSemantics

  datatype AuditState = AuditState(event: Event, required: nat, results: seq<AuditResult>, trust: Trust, terminal: bool)

  function ImpactRank(i: Impact): nat {
    match i case LOW => 0 case MEDIUM => 1 case HIGH => 2 case CRITICAL => 3
  }

  function Max(a: nat, b: nat): nat {
    if a < b then b else a
  }

  function RequiredAudits(domain: Domain, threshold: Impact, criticalDoubleAudit: bool, event: Event): nat {
    var configured :=
      if event.impact == CRITICAL && criticalDoubleAudit then 2
      else if ImpactRank(event.impact) >= ImpactRank(threshold) then 1 else 0;
    Max(configured, RequiredIndependentAudits(domain, event.impact, criticalDoubleAudit))
  }

  function Passes(results: seq<AuditResult>): nat {
    if results == [] then 0
    else Passes(results[..|results| - 1]) + if results[|results| - 1].verdict == PASS then 1 else 0
  }

  predicate Rejected(results: seq<AuditResult>) {
    exists i :: 0 <= i < |results| && results[i].verdict == REJECT
  }

  /** `_recompute_state`. */
  function Recomputed(s: AuditState): AuditState {
    if Rejected(s.results) then s.(trust := Trust.REJECTED, terminal := true)
    else if Passes(s.results) >= s.required then s.(trust := AUDITED_NIGHTLY, terminal := true)
    else if Passes(s.results) > 0 then s.(trust := AUDIT_1_PASS, terminal := false)
    else s.(trust := Trust.AUDIT_PENDING, terminal := false)
  }

  /** `next_audit_kind`. */
  function NextAuditKind(domain: Domain, s: AuditState): Option<AuditKind> {
    var t := s.event.eventType;
    if s.terminal || Passes(s.results) >= s.required then None
    else if RequiresEvaluator(domain, t) then Some(IndependentEvaluator)
    else if s.results == [] then
      (if t in {COUNTEREXAMPLE, KEY_REFUTATION} then Some(CounterexampleCheck)
       else if t in {COMPUTATIONAL_COLLISION, COMPUTATIONAL_PATTERN} then Some(IndependentEvaluator)
       else Some(Proof))
    else if t in {COUNTEREXAMPLE, KEY_REFUTATION, COMPUTATIONAL_COLLISION, COMPUTATIONAL_PATTERN}
    then Some(IndependentEvaluator)
    else Some(Adversarial)
  }

  /** The one upgrade past the proposed level: an evaluator's redundant exact check of an exact test. */
  predicate RedundantUpgrade(event: Event, r: AuditResult) {
    event.proposed == E2_EXACT_TESTED && r.evidence == E3_REDUNDANT_EXACT && r.kind == IndependentEvaluator
  }

  predicate EvidenceAllowed(event: Event, r: AuditResult) {
    r.evidence != E5_FORMAL && (Rank(r.evidence) <= Rank(event.proposed) || RedundantUpgrade(event, r))
  }

  predicate SameThread(a: AuditResult, b: AuditResult) {
    a.thread.Some? && a.thread.value != "" && a.thread == b.thread
  }

  /** `record` does not raise. */
  predicate Recordable(domain: Domain, s: AuditState, r: AuditResult) {
    && !s.terminal
    && SameText(r.statement, s.event.statement)
    && NextAuditKind(domain, s) == Some(r.kind)
    && (forall i :: 0 <= i < |s.results| ==> s.results[i].auditId != r.auditId && !SameThread(r, s.results[i]))
    && (r.verdict == PASS ==> r.checks != [] && r.gaps == [] && forall c :: c in r.checks ==> c)
    && EvidenceAllowed(s.event, r)
    && (r.verdict == PASS ==> TransitionFor(domain, s.event.eventType, r.evidence).Some?)
  }

  /** The state `record` leaves. */
  function WithResult(s: AuditState, r: AuditResult): AuditState {
    var results := s.results + [r];
    match r.verdict
    case REJECT => s.(results := results, trust := Trust.REJECTED, terminal := true)
    case UNRESOLVED => s.(results := results, trust := Trust.AUDIT_PENDING, terminal := false)
    case PASS =>
      if Passes(results) >= s.required then s.(results := results, trust := AUDITED_NIGHTLY, terminal := true)
      else s.(results := results, trust := AUDIT_1_PASS)
  }

  /** `[x for x in results if x.verdict == "PASS" and x.audit_id in ids]`. */
  function PassesIn(results: seq<AuditResult>, ids: set<string>): seq<AuditResult> {
    if results == [] then [] else
      var r := results[|results| - 1];
      var earlier := PassesIn(results[..|results| - 1], ids);
      if r.verdict == PASS && r.auditId in ids then earlier + [r] else earlier
  }

  /** `[x for x in results if x.audit_id not in ids]`. */
  function Without(results: seq<AuditResult>, ids: set<string>): seq<AuditResult> {
    if results == [] then [] else
      var r := results[|results| - 1];
      var earlier := Without(results[..|results| - 1], ids);
      if r.auditId in ids then earlier else earlier + [r]
  }

  function AuditIds(results: seq<AuditResult>): set<string> {
    set r | r in results :: r.auditId
  }

  /** The state `discard_pass_results` leaves. */
  function Discarded(s: AuditState, ids: set<string>): AuditState {
    var discarded := PassesIn(s.results, ids);
    if discarded == [] then s else Recomputed(s.(results := Without(s.results, AuditIds(discarded))))
  }

  function PassingEvidence(results: seq<AuditResult>): seq<Evidence> {
    if results == [] then [] else
      var r := results[|results| - 1];
      var earlier := PassingEvidence(results[..|results| - 1]);
      if r.verdict == PASS then earlier + [r.evidence] else earlier
  }

  function LowestOf(levels: seq<Evidence>): Evidence
    requires levels != []
  {
    if |levels| == 1 then levels[0] else
      var lowest := LowestOf(levels[..|levels| - 1]);
      if Rank(levels[|levels| - 1]) < Rank(lowest) then levels[|levels| - 1] else lowest
  }

  /** `verified_evidence_level`. */
  function VerifiedEvidence(s: AuditState): Evidence {
    var levels := PassingEvidence(s.results);
    if levels == [] then E0_SPECULATIVE else LowestOf(levels)
  }

  class AuditGate {
    const domain: Domain
    const threshold: Impact
    const criticalDoubleAudit: bool
    var states: map<string, AuditState>

    constructor (domain: Domain, threshold: Impact := HIGH, criticalDoubleAudit: bool := true)
      ensures this.domain == domain && states == map[]
    {
      this.domain, this.threshold, this.criticalDoubleAudit, states := domain, threshold, criticalDoubleAudit, map[];
    }

    function NewState(event: Event): AuditState {
      AuditState(event, RequiredAudits(domain, threshold, criticalDoubleAudit, event), [], Trust.AUDIT_PENDING, false)
    }

    /** `register`: the candidate's state, new or as it was; `None` when the event type is unsupported. */
    method Register(event: Event) returns (state: Option<AuditState>)
      modifies this
      ensures state.Some? <==> EventTransition(domain, event.eventType).Some?
      ensures state.Some? ==> event.fingerprint in states && state.value == states[event.fingerprint]
      ensures states == if state.Some? && event.fingerprint !in old(states)
                        then old(states)[event.fingerprint := NewState(event)] else old(states)
    {
      if EventTransition(domain, event.eventType).None? {
        return None;
      }
      if event.fingerprint !in states {
        states := states[event.fingerprint := NewState(event)];
      }
      state := Some(states[event.fingerprint]);
    }

    /** `pass_count`. */
    static method CountPasses(results: seq<AuditResult>) returns (passes: nat)
      ensures passes == Passes(results)
    {
      passes := 0;
      for i := 0 to |results|
        invariant passes == Passes(results[..i])
      {
        assert results[..i + 1][..i] == results[..i];
        if results[i].verdict == PASS {
          passes := passes + 1;
        }
      }
      assert results[..|results|] == results;
    }

    /** `record`: the new trust status, `None` when it raises. */
    method Record(r: AuditResult) returns (trust: Option<Trust>)
      modifies this
      ensures trust.Some? <==> r.fingerprint in old(states) && Recordable(domain, old(states)[r.fingerprint], r)
      ensures trust.None? ==> states == old(states)
      ensures trust.Some? ==>
                && states == old(states)[r.fingerprint := WithResult(old(states)[r.fingerprint], r)]
                && trust.value == states[r.fingerprint].trust
    {
      if r.fingerprint !in states || !Recordable(domain, states[r.fingerprint], r) {
        return None;
      }
      var s := states[r.fingerprint];
      s := s.(results := s.results + [r]);
      var passes := CountPasses(s.results);
      match r.verdict {
        case REJECT => s := s.(trust := Trust.REJECTED, terminal := true);
        case UNRESOLVED => s := s.(trust := Trust.AUDIT_PENDING, terminal := false);
        case PASS =>
          if passes >= s.required {
            s := s.(trust := AUDITED_NIGHTLY, terminal := true);
          } else {
            s := s.(trust := AUDIT_1_PASS);
          }
      }
      states := states[r.fingerprint := s];
      trust := Some(s.trust);
    }

    /** `discard_pass_results`: the discarded results, `None` for an unknown candidate. */
    method DiscardPassResults(fingerprint: string, ids: set<string>) returns (discarded: Option<seq<AuditResult>>)
      modifies this
      ensures discarded.Some? <==> fingerprint in old(states)
      ensures discarded.Some? ==>
                && discarded.value == PassesIn(old(states)[fingerprint].results, ids)
                && states == old(states)[fingerprint := Discarded(old(states)[fingerprint], ids)]
      ensures discarded.None? ==> states == old(states)
    {
      if fingerprint !in states {
        return None;
      }
      var s := states[fingerprint];
      var found := PassesIn(s.results, ids);
      if found != [] {
        s := Recomputed(s.(results := Without(s.results, AuditIds(found))));
      }
      states := states[fingerprint := s];
      discarded := Some(found);
    }
  }
}
