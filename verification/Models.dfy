/** The records the claim graph and the audit gate exchange. Timestamps, priorities and display fields are dropped. */
module Models {
  import opened Prelude

  datatype Evidence = E0_SPECULATIVE | E1_NUMERIC | E2_EXACT_TESTED | E3_REDUNDANT_EXACT | E4_CERTIFIED | E5_FORMAL

  datatype Impact = LOW | MEDIUM | HIGH | CRITICAL

  datatype Status =
    | PROVED | REDUCED_TO | PLAUSIBLE | FAILED | OPEN | COMPUTATION_ONLY
    | SUPPORTED | REFUTED | INCONCLUSIVE | CERTIFIED
    | NOT_SUPPORTED | CONFIRMED | REPLICATED

  datatype EventType =
    | THEOREM_CANDIDATE | COUNTEREXAMPLE | KEY_LEMMA | KEY_REFUTATION | REDUCTION | OBSTRUCTION | EQUIVALENCE
    | COMPUTATIONAL_COLLISION | COMPUTATIONAL_PATTERN | REPRESENTATION_BRIDGE
    | CHECKER_SUPPORT | CHECKER_REFUTATION | CERTIFICATE | INCONCLUSIVE_RESULT
    | EXPERIMENT_SUPPORT | EXPERIMENT_NOT_SUPPORTED | CONFIRMATION | REPLICATION

  datatype Trust =
    | UNTRUSTED_CANDIDATE | AUDIT_PENDING | AUDIT_1_PASS | AUDIT_2_PASS
    | AUDITED_NIGHTLY | REJECTED | FORMALLY_VERIFIED | CANONICAL_TRUSTED

  datatype ObligationStatus = ObligationOpen | ObligationBlocked | ObligationDischarged | ObligationRefuted

  datatype Obligation = Obligation(id: string, statement: string, status: ObligationStatus, dependencies: seq<string>,
                                   evidencePaths: seq<string>)

  datatype Claim = Claim(statement: string, assumptions: seq<string>, status: Status, trust: Trust,
                         dependencies: seq<string>, dependents: seq<string>, evidencePaths: seq<string>,
                         counterexamples: seq<string>, gaps: seq<string>, parent: Option<string>,
                         evidence: Evidence, obligations: seq<Obligation>)

  datatype Event = Event(fingerprint: string, claimId: string, eventType: EventType, impact: Impact,
                         statement: string, assumptions: seq<string>, dependencies: seq<string>,
                         artifactPaths: seq<string>, parent: Option<string>, proposed: Evidence)

  datatype Verdict = PASS | REJECT | UNRESOLVED
  datatype AuditKind = Proof | Adversarial | CounterexampleCheck | IndependentEvaluator

  /** `checks` lists which checks passed. */
  datatype AuditResult = AuditResult(auditId: string, fingerprint: string, thread: Option<string>, verdict: Verdict,
                                     kind: AuditKind, statement: string, checks: seq<bool>, gaps: seq<string>,
                                     evidence: Evidence)

  function Rank(e: Evidence): nat {
    match e
    case E0_SPECULATIVE => 0
    case E1_NUMERIC => 1
    case E2_EXACT_TESTED => 2
    case E3_REDUNDANT_EXACT => 3
    case E4_CERTIFIED => 4
    case E5_FORMAL => 5
  }

  predicate IsSpace(c: char) {
    c in {' ', '\t', '\n', '\r', '\U{0B}', '\U{0C}', '\U{1C}', '\U{1D}', '\U{1E}', '\U{1F}'}
  }

  /** Python's `s.split()`: the maximal runs of characters that are not white space. */
  function Words(s: string, word: string := ""): seq<string> {
    if s == "" then (if word == "" then [] else [word])
    else if IsSpace(s[0]) then (if word == "" then [] else [word]) + Words(s[1..])
    else Words(s[1..], word + [s[0]])
  }

  /** Two texts are equal once their white space is normalised. */
  predicate SameText(a: string, b: string) {
    Words(a) == Words(b)
  }

  /** `bool(s.strip())`. */
  predicate NonBlank(s: string) {
    exists i :: 0 <= i < |s| && !IsSpace(s[i])
  }
}
