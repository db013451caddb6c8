/** The three pinned domain contracts and the lookups over them. */
module DomainSemantics {
  import opened Prelude
  import opened Models

  datatype Domain = MathResearch | CertifiedComputational | Empirical

  datatype Transition = Transition(status: Option<Status>, trustChange: bool, minEvidence: Evidence)

  datatype Outcome = Positive | Negative

  function Statuses(d: Domain): set<Status> {
    match d
    case MathResearch => {PROVED, REDUCED_TO, PLAUSIBLE, FAILED, OPEN, COMPUTATION_ONLY}
    case CertifiedComputational => {OPEN, SUPPORTED, REFUTED, INCONCLUSIVE, CERTIFIED}
    case Empirical => {OPEN, SUPPORTED, NOT_SUPPORTED, INCONCLUSIVE, CONFIRMED, REPLICATED}
  }

  const INITIAL_STATUS := OPEN

  function CandidateStatus(d: Domain): Status {
    if d.MathResearch? then PLAUSIBLE else SUPPORTED
  }

  function FrontierStatuses(d: Domain): set<Status> {
    if d.MathResearch? then {OPEN, PLAUSIBLE, REDUCED_TO} else {OPEN, SUPPORTED, INCONCLUSIVE}
  }

  function TerminalPositive(d: Domain): set<Status> {
    match d
    case MathResearch => {PROVED}
    case CertifiedComputational => {CERTIFIED}
    case Empirical => {CONFIRMED, REPLICATED}
  }

  function TerminalNegative(d: Domain): set<Status> {
    match d
    case MathResearch => {FAILED}
    case CertifiedComputational => {REFUTED}
    case Empirical => {NOT_SUPPORTED}
  }

  /** `dependency_is_refuting`: in every pinned contract these are the negative terminal statuses. */
  predicate DependencyIsRefuting(d: Domain, s: Status) {
    s in TerminalNegative(d)
  }

  predicate HasProofObligations(d: Domain) {
    d.MathResearch?
  }

  /** `event_transition`: `None` is the raised unsupported event type. */
  function EventTransition(d: Domain, t: EventType): Option<Transition> {
    if t == REPRESENTATION_BRIDGE then Some(Transition(None, false, E0_SPECULATIVE)) else
      match d
      case MathResearch => (
        match t
        case THEOREM_CANDIDATE | KEY_LEMMA | EQUIVALENCE => Some(Transition(Some(PROVED), true, E0_SPECULATIVE))
        case COUNTEREXAMPLE | KEY_REFUTATION => Some(Transition(Some(FAILED), true, E0_SPECULATIVE))
        case REDUCTION => Some(Transition(Some(REDUCED_TO), true, E0_SPECULATIVE))
        case OBSTRUCTION | COMPUTATIONAL_COLLISION | COMPUTATIONAL_PATTERN =>
          Some(Transition(Some(COMPUTATION_ONLY), true, E0_SPECULATIVE))
        case _ => None)
      case CertifiedComputational => (
        match t
        case CHECKER_SUPPORT => Some(Transition(Some(SUPPORTED), true, E2_EXACT_TESTED))
        case CHECKER_REFUTATION => Some(Transition(Some(REFUTED), true, E2_EXACT_TESTED))
        case CERTIFICATE => Some(Transition(Some(CERTIFIED), true, E4_CERTIFIED))
        case INCONCLUSIVE_RESULT => Some(Transition(Some(INCONCLUSIVE), true, E2_EXACT_TESTED))
        case _ => None)
      case Empirical => (
        match t
        case EXPERIMENT_SUPPORT => Some(Transition(Some(SUPPORTED), true, E2_EXACT_TESTED))
        case EXPERIMENT_NOT_SUPPORTED => Some(Transition(Some(NOT_SUPPORTED), true, E2_EXACT_TESTED))
        case CONFIRMATION => Some(Transition(Some(CONFIRMED), true, E3_REDUNDANT_EXACT))
        case REPLICATION => Some(Transition(Some(REPLICATED), true, E3_REDUNDANT_EXACT))
        case INCONCLUSIVE_RESULT => Some(Transition(Some(INCONCLUSIVE), true, E2_EXACT_TESTED))
        case _ => None)
  }

  /** `transition_for`: `None` when it raises. */
  function TransitionFor(d: Domain, t: EventType, evidence: Evidence): Option<Transition> {
    match EventTransition(d, t)
    case None => None
    case Some(transition) => if Rank(evidence) < Rank(transition.minEvidence) then None else Some(transition)
  }

  function FinalOutcome(d: Domain, s: Status): Option<Outcome> {
    if s in TerminalPositive(d) then Some(Positive)
    else if s in TerminalNegative(d) then Some(Negative)
    else None
  }

  function RequiredIndependentAudits(d: Domain, impact: Impact, criticalDoubleAudit: bool): nat {
    var minimum := if d.MathResearch? then 0 else 1;
    if impact == CRITICAL && criticalDoubleAudit then 2 else minimum
  }

  /** `requires_deterministic_checker` or `requires_frozen_protocol`. */
  predicate RequiresEvaluator(d: Domain, t: EventType) {
    match d
    case MathResearch => false
    case CertifiedComputational => t in {CHECKER_SUPPORT, CHECKER_REFUTATION, CERTIFICATE, INCONCLUSIVE_RESULT}
    case Empirical =>
      t in {EXPERIMENT_SUPPORT, EXPERIMENT_NOT_SUPPORTED, CONFIRMATION, REPLICATION, INCONCLUSIVE_RESULT}
  }
}
