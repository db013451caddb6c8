/** What verdicts leave of a claim, field by field, after one of them and after any run. */
module ClaimGraphVerdicts {
  import opened Prelude
  import opened Models
  import opened DomainSemantics
  import opened ClaimGraphModel
  import opened ClaimGraphOps
  import opened ClaimGraphTheorems

  // ---------- one verdict ----------

  predicate Unclosed(o: Obligation) {
    o.status == ObligationOpen || o.status == ObligationBlocked
  }

  /** `paths` lists, sorted and once each, what `a` and `b` list. */
  predicate UnionOf(paths: seq<string>, a: seq<string>, b: seq<string>) {
    StrictlySorted(paths) && Elements(paths) == Elements(a) + Elements(b)
  }

  /** `o` was closed in favour of the claim or against it, on the evidence of the event. */
  predicate ClosedBy(o: Obligation, o': Obligation, outcome: Outcome, event: Event) {
    && o'.id == o.id && o'.statement == o.statement && o'.dependencies == o.dependencies
    && (outcome == Positive ==> o'.status == ObligationDischarged)
    && (outcome == Negative ==> o'.status == ObligationRefuted)
    && UnionOf(o'.evidencePaths, o.evidencePaths, event.artifactPaths)
  }

  /** The outcome the verdict's event stands for, if it is a terminal one. */
  function EventOutcome(domain: Domain, t: EventType): Option<Outcome> {
    match EventTransition(domain, t)
    case Some(transition) => if transition.status.Some? then FinalOutcome(domain, transition.status.value) else None
    case None => None
  }

  /** Which events refute, which establish, and that nothing else is terminal. */
  lemma OutcomeOfEvent(domain: Domain, t: EventType)
    requires EventTransition(domain, t).Some?
    ensures EventOutcome(domain, t) == Some(Negative) <==>
              t in {COUNTEREXAMPLE, KEY_REFUTATION, CHECKER_REFUTATION, EXPERIMENT_NOT_SUPPORTED}
    ensures EventOutcome(domain, t) == Some(Positive) <==>
              t in {THEOREM_CANDIDATE, KEY_LEMMA, EQUIVALENCE, CERTIFICATE, CONFIRMATION, REPLICATION}
    ensures EventOutcome(domain, t).Some? && !domain.MathResearch? ==>
              Rank(EventTransition(domain, t).value.minEvidence) >= Rank(E2_EXACT_TESTED)
    ensures t in {CERTIFICATE, CONFIRMATION, REPLICATION} ==>
              Rank(EventTransition(domain, t).value.minEvidence) >= Rank(E3_REDUNDANT_EXACT)
  {
  }

  lemma Closes(os: seq<Obligation>, outcome: Outcome, event: Event)
    ensures var status := if outcome == Negative then ObligationRefuted else ObligationDischarged;
            var os' := ClosedObligations(os, status, event.artifactPaths);
            && |os'| == |os|
            && forall i :: 0 <= i < |os| ==>
                 if Unclosed(os[i]) then ClosedBy(os[i], os'[i], outcome, event) else os'[i] == os[i]
  {
    var status := if outcome == Negative then ObligationRefuted else ObligationDischarged;
    forall i | 0 <= i < |os|
      ensures var o' := ClosedObligations(os, status, event.artifactPaths)[i];
              if Unclosed(os[i]) then ClosedBy(os[i], o', outcome, event) else o' == os[i]
    {
      assert ClosedObligations(os, status, event.artifactPaths)[i] == ClosedObligation(os[i], status, event.artifactPaths);
    }
  }

  /** Each open or blocked obligation is closed the way the outcome says, and no other changes. */
  predicate ClosesAll(a: Claim, b: Claim, outcome: Outcome, event: Event) {
    && |b.obligations| == |a.obligations|
    && forall i :: 0 <= i < |a.obligations| ==>
         if Unclosed(a.obligations[i]) then ClosedBy(a.obligations[i], b.obligations[i], outcome, event)
         else b.obligations[i] == a.obligations[i]
  }

  /** What an applied verdict that stands for `outcome` does to evidence and counterexamples. */
  predicate Credits(domain: Domain, a: Claim, b: Claim, event: Event, verified: Evidence, outcome: Option<Outcome>) {
    && Rank(b.evidence) == (if Rank(a.evidence) < Rank(verified) then Rank(verified) else Rank(a.evidence))
    && UnionOf(b.evidencePaths, a.evidencePaths, event.artifactPaths)
    && (if domain.MathResearch? && outcome == Some(Negative)
        then UnionOf(b.counterexamples, a.counterexamples, event.artifactPaths)
        else b.counterexamples == a.counterexamples)
  }

  /** A verdict that decides closes what is open, in a domain with obligations, and removes the gaps; any other leaves
      obligations and gaps alone. */
  predicate Decided(domain: Domain, a: Claim, b: Claim, event: Event, decision: Option<Outcome>) {
    match decision
    case None => b.obligations == a.obligations && b.gaps == a.gaps
    case Some(outcome) =>
      && b.gaps == []
      && FinalOutcome(domain, b.status) == Some(outcome)
      && if HasProofObligations(domain) then ClosesAll(a, b, outcome, event) else b.obligations == a.obligations
  }

  lemma MergedIsUnion(a: seq<string>, b: seq<string>)
    ensures UnionOf(Merged(a, b), a, b)
  {
  }

  /** The claim once its status is replaced by `next`. */
  lemma StatusLeaves(domain: Domain, claim: Claim, next: Status, event: Event)
    ensures var b := WithStatus(domain, claim, next, event);
            && b.status == next && b.trust == claim.trust && b.evidence == claim.evidence
            && b.evidencePaths == claim.evidencePaths
            && (if domain.MathResearch? && FinalOutcome(domain, next) == Some(Negative)
                then UnionOf(b.counterexamples, claim.counterexamples, event.artifactPaths)
                else b.counterexamples == claim.counterexamples)
            && match FinalOutcome(domain, next)
               case None => b.obligations == claim.obligations && b.gaps == claim.gaps
               case Some(outcome) =>
                 && b.gaps == []
                 && if HasProofObligations(domain) then ClosesAll(claim, b, outcome, event)
                    else b.obligations == claim.obligations
  {
    MergedIsUnion(claim.counterexamples, event.artifactPaths);
    var outcome := FinalOutcome(domain, next);
    if outcome.Some? {
      Closes(claim.obligations, outcome.value, event);
    }
  }

  lemma EvidenceLeaves(domain: Domain, claim: Claim, transition: Transition, event: Event, verified: Evidence)
    ensures var b := WithEvidence(claim, transition, event, verified);
            && b.trust == (if transition.trustChange then AUDITED_NIGHTLY else claim.trust)
            && Rank(b.evidence) == (if Rank(claim.evidence) < Rank(verified) then Rank(verified) else Rank(claim.evidence))
            && UnionOf(b.evidencePaths, claim.evidencePaths, event.artifactPaths)
            && b.counterexamples == claim.counterexamples && b.gaps == claim.gaps
            && b.obligations == claim.obligations && b.status == claim.status
  {
    MergedIsUnion(claim.evidencePaths, event.artifactPaths);
  }

  /** Only a representation bridge leaves trust alone, and it changes nothing at all. */
  lemma OthersTrust(domain: Domain, t: EventType)
    requires EventTransition(domain, t).Some?
    ensures var transition := EventTransition(domain, t).value;
            && (transition.trustChange <==> t != REPRESENTATION_BRIDGE)
            && (t == REPRESENTATION_BRIDGE ==> transition.status.None?)
  {
  }

  lemma AppliedLeaves(domain: Domain, claim: Claim, event: Event, transition: Transition, verified: Evidence,
                      next: Status)
    ensures var b := WithStatus(domain, WithEvidence(claim, transition, event, verified), next, event);
            var decision := FinalOutcome(domain, next);
            && b.trust == (if transition.trustChange then AUDITED_NIGHTLY else claim.trust)
            && Credits(domain, claim, b, event, verified, decision) && Decided(domain, claim, b, event, decision)
  {
    EvidenceLeaves(domain, claim, transition, event, verified);
    StatusLeaves(domain, WithEvidence(claim, transition, event, verified), next, event);
  }

  lemma UnappliedLeaves(domain: Domain, claim: Claim, event: Event, transition: Transition, verified: Evidence)
    ensures var b := WithEvidence(claim, transition, event, verified);
            && b.trust == (if transition.trustChange then AUDITED_NIGHTLY else claim.trust)
            && Credits(domain, claim, b, event, verified, None) && Decided(domain, claim, b, event, None)
  {
    EvidenceLeaves(domain, claim, transition, event, verified);
  }

  lemma TransitionLeaves(domain: Domain, claim: Claim, event: Event, transition: Transition, verified: Evidence,
                         guardAllows: bool, decision: Option<Outcome>)
    requires decision == if transition.status.Some? then FinalOutcome(domain, transition.status.value) else None
    ensures var outcome := ApplyTransition(domain, claim, event, transition, verified, guardAllows);
            outcome.Updated? ==>
              && outcome.claim.trust == (if transition.trustChange then AUDITED_NIGHTLY else claim.trust)
              && Credits(domain, claim, outcome.claim, event, verified, decision)
              && Decided(domain, claim, outcome.claim, event, decision)
              && (decision.Some? ==> guardAllows)
  {
    UnappliedLeaves(domain, claim, event, transition, verified);
    if transition.status.Some? {
      AppliedLeaves(domain, claim, event, transition, verified, transition.status.value);
    }
  }

  /** The claim `apply_audit_pass` leaves, said of its fields. */
  lemma PassLeaves(domain: Domain, claim: Claim, event: Event, passes: int, required: int, verified: Evidence,
                   guardAllows: bool)
    ensures var outcome := AuditPass(domain, claim, event, passes, required, verified, guardAllows);
            var decision := EventOutcome(domain, event.eventType);
            outcome.Updated? ==>
              && passes >= required && event.eventType != REPRESENTATION_BRIDGE
              && outcome.claim.trust == AUDITED_NIGHTLY
              && Credits(domain, claim, outcome.claim, event, verified, decision)
              && Decided(domain, claim, outcome.claim, event, decision)
              && (decision.Some? ==> guardAllows)
  {
    var transition := EventTransition(domain, event.eventType);
    if transition.Some? {
      OthersTrust(domain, event.eventType);
      TransitionLeaves(domain, claim, event, transition.value, verified, guardAllows,
                       EventOutcome(domain, event.eventType));
    }
  }

  /** The event gives claims this status. */
  predicate Gives(domain: Domain, t: EventType, s: Status) {
    EventTransition(domain, t).Some? && EventTransition(domain, t).value.status == Some(s)
  }

  /** The statuses of a domain are the initial one, that of a new candidate, and those its events give. */
  lemma StatusesAre(domain: Domain, s: Status)
    ensures s in Statuses(domain) <==> s == OPEN || s == CandidateStatus(domain) || exists t :: Gives(domain, t, s)
    ensures CandidateStatus(domain) == if domain.MathResearch? then PLAUSIBLE else SUPPORTED
  {
    if s in Statuses(domain) && s != OPEN && s != CandidateStatus(domain) {
      var t := match s
        case PROVED => THEOREM_CANDIDATE
        case FAILED => COUNTEREXAMPLE
        case REDUCED_TO => REDUCTION
        case COMPUTATION_ONLY => OBSTRUCTION
        case REFUTED => CHECKER_REFUTATION
        case INCONCLUSIVE => INCONCLUSIVE_RESULT
        case CERTIFIED => CERTIFICATE
        case NOT_SUPPORTED => EXPERIMENT_NOT_SUPPORTED
        case CONFIRMED => CONFIRMATION
        case _ => REPLICATION;
      assert Gives(domain, t, s);
    }
  }

  lemma NoStatusIsBridge(domain: Domain, t: EventType)
    requires EventTransition(domain, t).Some? && EventTransition(domain, t).value.status.None?
    ensures !EventTransition(domain, t).value.trustChange
  {
  }

  lemma NextApplies(domain: Domain, claim: Claim, t: EventType, next: Status)
    requires Gives(domain, t, next)
    ensures StatusApplies(domain, claim, next) <==>
              || FinalOutcome(domain, next).Some?
              || (FinalOutcome(domain, claim.status).None?
                  && (next != COMPUTATION_ONLY || claim.status in {OPEN, PLAUSIBLE}))
  {
  }

  /** The status an applied verdict leaves: a deciding one gives its own, and so does any other to a claim that is not
      terminal, except that in mathematics a computation alone only replaces an open or plausible status. */
  lemma StatusLeft(domain: Domain, claim: Claim, event: Event, passes: int, required: int, verified: Evidence,
                   guardAllows: bool)
    ensures var outcome := AuditPass(domain, claim, event, passes, required, verified, guardAllows);
            outcome.Updated? ==>
              && EventTransition(domain, event.eventType).Some?
              && EventTransition(domain, event.eventType).value.status.Some?
              && var next := EventTransition(domain, event.eventType).value.status.value;
              && outcome.claim.status ==
                 if FinalOutcome(domain, next).Some? then next
                 else if FinalOutcome(domain, claim.status).Some? then claim.status
                 else if next == COMPUTATION_ONLY && claim.status !in {OPEN, PLAUSIBLE} then claim.status
                 else next
  {
    var transition := EventTransition(domain, event.eventType);
    if transition.Some? {
      OthersTrust(domain, event.eventType);
      TransitionStatus(domain, claim, event, transition.value, verified, guardAllows);
      if transition.value.status.Some? {
        NextApplies(domain, claim, event.eventType, transition.value.status.value);
      } else {
        NoStatusIsBridge(domain, event.eventType);
      }
    }
  }

  // ---------- one rejection ----------

  /** Rejecting the evidence of a candidate changes the graph exactly if the candidate was made for the parent the event
      names and is still an untrusted candidate, and then marks it REJECTED and changes nothing else. */
  lemma RejectIs(domain: Domain, naming: Naming, claims: Claims, event: Event)
    ensures var after := Step(domain, naming, claims, Reject(event));
            if event.claimId in claims && event.parent.Some? && claims[event.claimId].parent == event.parent
               && claims[event.claimId].trust == UNTRUSTED_CANDIDATE
               && claims[event.claimId].status == (if domain.MathResearch? then PLAUSIBLE else SUPPORTED)
            then
              && after.Keys == claims.Keys
              && after[event.claimId] == claims[event.claimId].(trust := REJECTED)
              && forall c :: c in claims && c != event.claimId ==> after[c] == claims[c]
            else after == claims
  {
  }

  // ---------- any run ----------

  /** The first operation of the run whose applied verdict decides the claim. */
  function FirstDecision(domain: Domain, naming: Naming, claims: Claims, ops: seq<GraphOp>, c: string): (k: Option<nat>)
    ensures k.Some? ==> k.value < |ops|
  {
    if ops == [] then None
    else
      var n := |ops| - 1;
      var earlier := FirstDecision(domain, naming, claims, ops[..n], c);
      if earlier.Some? then earlier
      else if Settles(domain, Run(domain, naming, claims, ops[..n]), ops[n], c) then Some(n)
      else None
  }

  /** What a verdict does to one obligation of its claim. */
  lemma VerdictObligation(domain: Domain, claims: Claims, op: GraphOp, i: nat)
    requires HasProofObligations(domain) && !op.Mark? && VerdictOn(domain, claims, op).Some?
    requires op.event.claimId in claims && i < |claims[op.event.claimId].obligations|
    ensures var o, claim := claims[op.event.claimId].obligations[i], VerdictOn(domain, claims, op).value;
            var decision := EventOutcome(domain, op.event.eventType);
            && i < |claim.obligations|
            && (DecidedBy(domain, op) ==> decision.Some?)
            && if Unclosed(o) && DecidedBy(domain, op) then ClosedBy(o, claim.obligations[i], decision.value, op.event)
               else claim.obligations[i] == o
  {
    if op.Pass? {
      PassLeaves(domain, claims[op.event.claimId], op.event, op.passes, op.required, op.verified, op.guardAllows);
    }
  }

  /** What a step does to one obligation. */
  lemma StepObligation(domain: Domain, naming: Naming, claims: Claims, op: GraphOp, c: string, i: nat)
    requires HasProofObligations(domain) && c in claims && i < |claims[c].obligations|
    ensures var after := Step(domain, naming, claims, op);
            var o := claims[c].obligations[i];
            && c in after && i < |after[c].obligations|
            && if Unclosed(o) && Settles(domain, claims, op, c)
               then EventOutcome(domain, op.event.eventType).Some?
                    && ClosedBy(o, after[c].obligations[i], EventOutcome(domain, op.event.eventType).value, op.event)
               else after[c].obligations[i] == o
  {
    if !op.Mark? {
      StepIs(domain, naming, claims, op);
      if op.event.claimId == c && VerdictOn(domain, claims, op).Some? {
        VerdictObligation(domain, claims, op, i);
      }
    }
  }

  /** After any run an obligation that was open or blocked is closed exactly if a verdict decided the claim, with the
      polarity and the evidence of the first that did; every other obligation is as it was. */
  lemma {:induction false} RunClosesIff(domain: Domain, naming: Naming, claims: Claims, ops: seq<GraphOp>, c: string,
                                        i: nat)
    requires HasProofObligations(domain) && c in claims && i < |claims[c].obligations|
    ensures var after, k := Run(domain, naming, claims, ops), FirstDecision(domain, naming, claims, ops, c);
            var o := claims[c].obligations[i];
            && c in after && i < |after[c].obligations|
            && if Unclosed(o) && k.Some?
               then EventOutcome(domain, ops[k.value].event.eventType).Some?
                    && ClosedBy(o, after[c].obligations[i], EventOutcome(domain, ops[k.value].event.eventType).value,
                                ops[k.value].event)
               else after[c].obligations[i] == o
  {
    if ops != [] {
      var n := |ops| - 1;
      RunClosesIff(domain, naming, claims, ops[..n], c, i);
      StepObligation(domain, naming, Run(domain, naming, claims, ops[..n]), ops[n], c, i);
    }
  }

  /** Before the first decision no verdict decided the claim, and `RunOutcomeIs` speaks of the last one. */
  lemma {:induction false} DecidedIff(domain: Domain, naming: Naming, claims: Claims, ops: seq<GraphOp>, c: string)
    ensures FirstDecision(domain, naming, claims, ops, c).Some? <==> LastDecision(domain, naming, claims, ops, c).Some?
  {
    if ops != [] {
      DecidedIff(domain, naming, claims, ops[..|ops| - 1], c);
    }
  }

  /** The trust the last operation that gave the claim any gave it. */
  function LastTrust(domain: Domain, naming: Naming, claims: Claims, ops: seq<GraphOp>, c: string): Option<Trust> {
    if ops == [] then None
    else
      var n := |ops| - 1;
      var here, op := Run(domain, naming, claims, ops[..n]), ops[n];
      if !op.Mark? && op.event.claimId == c && VerdictOn(domain, here, op).Some?
      then Some(if op.Reject? then REJECTED else AUDITED_NIGHTLY)
      else LastTrust(domain, naming, claims, ops[..n], c)
  }

  lemma StepTrust(domain: Domain, naming: Naming, claims: Claims, op: GraphOp, c: string)
    requires c in claims
    ensures var after := Step(domain, naming, claims, op);
            && c in after
            && after[c].trust ==
               if !op.Mark? && op.event.claimId == c && VerdictOn(domain, claims, op).Some?
               then (if op.Reject? then REJECTED else AUDITED_NIGHTLY)
               else claims[c].trust
  {
    if !op.Mark? {
      StepIs(domain, naming, claims, op);
      if op.Pass? && op.event.claimId == c {
        PassLeaves(domain, claims[c], op.event, op.passes, op.required, op.verified, op.guardAllows);
      }
    }
  }

  /** After any run the trust of a claim is the one it had, or AUDITED_NIGHTLY or REJECTED as the last verdict or rejection
      that applied to it says. */
  lemma {:induction false} RunTrustIs(domain: Domain, naming: Naming, claims: Claims, ops: seq<GraphOp>, c: string)
    requires c in claims
    ensures var after, last := Run(domain, naming, claims, ops), LastTrust(domain, naming, claims, ops, c);
            && c in after
            && after[c].trust == if last.Some? then last.value else claims[c].trust
  {
    if ops != [] {
      RunTrustIs(domain, naming, claims, ops[..|ops| - 1], c);
      StepTrust(domain, naming, Run(domain, naming, claims, ops[..|ops| - 1]), ops[|ops| - 1], c);
    }
  }
}
