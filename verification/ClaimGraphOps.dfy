/** What registering a candidate and applying an audit verdict do to a claim. */
module ClaimGraphOps {
  import opened Prelude
  import opened Models
  import opened DomainSemantics
  import opened Digraph
  import opened ClaimGraphModel

  /** `f"{claim_id}::OBL::{digest}"`, left to the caller. */
  type Naming = (string, string) -> string

  const AUDIT_PENDING_GAP := "independent audit pending"

  /** `list(dict.fromkeys(s))`. */
  function Dedupe(s: seq<string>): (r: seq<string>)
    ensures Distinct(r) && forall x :: x in r <==> x in s
  {
    if s == [] then [] else
      assert s == s[..|s| - 1] + [s[|s| - 1]];
      var r := Dedupe(s[..|s| - 1]);
      if s[|s| - 1] in r then r else r + [s[|s| - 1]]
  }

  function NonBlanks(s: seq<string>): (r: seq<string>)
    ensures forall x :: x in r ==> NonBlank(x)
  {
    if s == [] then [] else
      var r := NonBlanks(s[..|s| - 1]);
      if NonBlank(s[|s| - 1]) then r + [s[|s| - 1]] else r
  }

  function ObligationStatements(claim: Claim): seq<string> {
    var gaps := Dedupe(NonBlanks(claim.gaps));
    if gaps == [] then [claim.statement] else gaps
  }

  function InitialObligationStatus(claim: Claim): ObligationStatus {
    if Trusted(claim.trust) && claim.status == PROVED then ObligationDischarged
    else if Trusted(claim.trust) && claim.status == FAILED then ObligationRefuted
    else ObligationOpen
  }

  function InitialObligation(id: string, claim: Claim, statement: string, naming: Naming): Obligation {
    var status := InitialObligationStatus(claim);
    Obligation(naming(id, statement), statement, status, claim.dependencies,
               if status == ObligationOpen then [] else claim.evidencePaths)
  }

  /** `_ensure_claim_obligations`: `None` when it raises. */
  function WithObligations(domain: Domain, id: string, claim: Claim, naming: Naming): Option<Claim> {
    if !HasProofObligations(domain) then (if claim.obligations == [] then Some(claim) else None)
    else if claim.obligations != [] then Some(claim)
    else
      var statements := ObligationStatements(claim);
      Some(claim.(obligations := seq(|statements|, i requires 0 <= i < |statements| =>
                                       InitialObligation(id, claim, statements[i], naming))))
  }

  // ---------- mark_candidate ----------

  function CandidateClaim(domain: Domain, event: Event): Claim {
    Claim(event.statement, event.assumptions, CandidateStatus(domain), UNTRUSTED_CANDIDATE, event.dependencies, [],
          event.artifactPaths, [], [AUDIT_PENDING_GAP], event.parent, E0_SPECULATIVE, [])
  }

  predicate SameTexts(a: seq<string>, b: seq<string>) {
    (set x | x in a :: Words(x)) == set x | x in b :: Words(x)
  }

  /** The candidate restates the claim it names. */
  predicate Restates(event: Event, claim: Claim) {
    && SameText(claim.statement, event.statement)
    && SameTexts(event.assumptions, claim.assumptions)
    && Elements(event.dependencies) == Elements(claim.dependencies)
    && event.parent == claim.parent
  }

  /** `mark_candidate`: the claims afterwards, `None` when it raises. */
  function MarkCandidate(domain: Domain, claims: Claims, event: Event, naming: Naming): Option<Claims> {
    if EventTransition(domain, event.eventType).None? || !(Elements(event.dependencies) <= claims.Keys) then None
    else if event.claimId in claims then
      (if Restates(event, claims[event.claimId]) then Some(claims) else None)
    else if event.parent.Some? && event.parent.value !in claims then None
    else
      match WithObligations(domain, event.claimId, CandidateClaim(domain, event), naming)
      case None => None
      case Some(claim) => Some(claims[event.claimId := claim])
  }

  // ---------- apply_audit_pass ----------

  datatype PassOutcome = NoChange | Raised | Updated(claim: Claim)

  function ClosedObligation(o: Obligation, status: ObligationStatus, paths: seq<string>): Obligation {
    if o.status in {ObligationOpen, ObligationBlocked}
    then o.(status := status, evidencePaths := Merged(o.evidencePaths, paths))
    else o
  }

  function ClosedObligations(os: seq<Obligation>, status: ObligationStatus, paths: seq<string>): seq<Obligation> {
    seq(|os|, i requires 0 <= i < |os| => ClosedObligation(os[i], status, paths))
  }

  /** The new status replaces the old one. */
  predicate StatusApplies(domain: Domain, claim: Claim, next: Status) {
    || FinalOutcome(domain, next).Some?
    || (FinalOutcome(domain, claim.status).None?
        && (claim.status in {INITIAL_STATUS, CandidateStatus(domain)} || next in FrontierStatuses(domain)))
  }

  /** The claim once trust, evidence level and evidence paths are updated. */
  function WithEvidence(claim: Claim, transition: Transition, event: Event, verified: Evidence): Claim {
    claim.(trust := if transition.trustChange then AUDITED_NIGHTLY else claim.trust,
           evidence := if Rank(verified) > Rank(claim.evidence) then verified else claim.evidence,
           evidencePaths := Merged(claim.evidencePaths, event.artifactPaths))
  }

  function WithStatus(domain: Domain, claim: Claim, next: Status, event: Event): Claim {
    var outcome := FinalOutcome(domain, next);
    var moved := claim.(status := next,
                        counterexamples := if outcome == Some(Negative) && domain.MathResearch?
                                           then Merged(claim.counterexamples, event.artifactPaths)
                                           else claim.counterexamples);
    if outcome.None? then moved
    else
      var closed := if outcome == Some(Negative) then ObligationRefuted else ObligationDischarged;
      moved.(obligations := if HasProofObligations(domain)
                            then ClosedObligations(claim.obligations, closed, event.artifactPaths)
                            else claim.obligations,
             gaps := [])
  }

  /** The polarity or guard check rejects this transition. */
  predicate Forbidden(domain: Domain, claim: Claim, next: Option<Status>, guardAllows: bool) {
    next.Some? && FinalOutcome(domain, next.value).Some? &&
    (!guardAllows
     || (!domain.MathResearch? && FinalOutcome(domain, claim.status).Some?
         && FinalOutcome(domain, claim.status) != FinalOutcome(domain, next.value)))
  }

  /** The rest of `apply_audit_pass` once the transition is found. */
  function ApplyTransition(domain: Domain, claim: Claim, event: Event, transition: Transition, verified: Evidence,
                           guardAllows: bool): PassOutcome
  {
    if transition.status.None? && !transition.trustChange then NoChange
    else if Forbidden(domain, claim, transition.status, guardAllows) then Raised
    else
      var moved := WithEvidence(claim, transition, event, verified);
      if transition.status.Some? && StatusApplies(domain, claim, transition.status.value)
      then Updated(WithStatus(domain, moved, transition.status.value, event))
      else Updated(moved)
  }

  function AuditPass(domain: Domain, claim: Claim, event: Event, passes: int, required: int, verified: Evidence,
                     guardAllows: bool): PassOutcome
  {
    if passes < required then NoChange
    else
      match TransitionFor(domain, event.eventType, verified)
      case None => Raised
      case Some(transition) => ApplyTransition(domain, claim, event, transition, verified, guardAllows)
  }

  // ---------- apply_audit_reject ----------

  predicate RejectApplies(domain: Domain, claims: Claims, event: Event) {
    && event.claimId in claims && event.parent.Some?
    && var claim := claims[event.claimId];
    && claim.parent == event.parent
    && claim.trust == UNTRUSTED_CANDIDATE && claim.status == CandidateStatus(domain)
  }

  // ---------- one operation ----------

  datatype GraphOp =
    | Mark(event: Event)
    | Pass(event: Event, passes: int, required: int, verified: Evidence, guardAllows: bool)
    | Reject(event: Event)

  /** The claims after one call; a call that raises leaves them as they were. */
  function Step(domain: Domain, naming: Naming, claims: Claims, op: GraphOp): Claims {
    match op
    case Mark(event) => (match MarkCandidate(domain, claims, event, naming) case None => claims case Some(c) => c)
    case Pass(event, passes, required, verified, guardAllows) =>
      if event.claimId !in claims then claims
      else (match AuditPass(domain, claims[event.claimId], event, passes, required, verified, guardAllows)
            case Updated(claim) => claims[event.claimId := claim]
            case _ => claims)
    case Reject(event) =>
      if RejectApplies(domain, claims, event)
      then claims[event.claimId := claims[event.claimId].(trust := REJECTED)] else claims
  }

  function Run(domain: Domain, naming: Naming, claims: Claims, ops: seq<GraphOp>): Claims {
    if ops == [] then claims else Step(domain, naming, Run(domain, naming, claims, ops[..|ops| - 1]), ops[|ops| - 1])
  }

  // ---------- _rebuild_dependents ----------

  /** The claims with new dependents lists. */
  function WithDependents(claims: Claims, lists: map<string, seq<string>>): (r: Claims)
    ensures SameStructure(claims, r)
  {
    map c | c in claims :: claims[c].(dependents := if c in lists then lists[c] else claims[c].dependents)
  }
}
