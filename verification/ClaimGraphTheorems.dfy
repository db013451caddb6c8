/** What every run of candidate registrations and audit verdicts keeps. */
module ClaimGraphTheorems {
  import opened Prelude
  import opened Models
  import opened DomainSemantics
  import opened Digraph
  import opened ClaimGraphModel
  import opened ClaimGraphOps

  // ---------- updates that leave the structure alone ----------

  /** The same claim up to its status, trust, evidence and the state of its obligations. */
  predicate SameClaim(a: Claim, b: Claim) {
    && a.statement == b.statement && a.assumptions == b.assumptions && a.parent == b.parent
    && a.dependencies == b.dependencies && |a.obligations| == |b.obligations|
    && forall i :: 0 <= i < |a.obligations| ==>
         && a.obligations[i].id == b.obligations[i].id
         && a.obligations[i].statement == b.obligations[i].statement
         && a.obligations[i].dependencies == b.obligations[i].dependencies
  }

  predicate SameClaims(a: Claims, b: Claims) {
    a.Keys == b.Keys && forall c :: c in a ==> SameClaim(a[c], b[c])
  }

  lemma SameClaimsStructure(a: Claims, b: Claims)
    requires SameClaims(a, b)
    ensures SameStructure(a, b)
  {
    forall c | c in a
      ensures a[c].dependencies == b[c].dependencies && |a[c].obligations| == |b[c].obligations|
      ensures forall i :: 0 <= i < |a[c].obligations| ==>
                a[c].obligations[i].id == b[c].obligations[i].id
                && a[c].obligations[i].dependencies == b[c].obligations[i].dependencies
    {
      assert SameClaim(a[c], b[c]);
    }
  }

  lemma ObligationOkCarries(a: Claims, b: Claims, o: Obligation, o': Obligation)
    requires SameStructure(a, b) && ObligationOk(a, o)
    requires o.id == o'.id && o.statement == o'.statement && o.dependencies == o'.dependencies
    ensures ObligationOk(b, o')
  {
    SameOwners(a, b);
    forall d | d in o'.dependencies ensures d in b || exists c :: c in b && d in ObligationIds(b[c]) {
      if d !in a {
        var c :| c in a && d in ObligationIds(a[c]);
        assert d in ObligationIds(b[c]);
      }
    }
  }

  lemma ClaimOkCarries(domain: Domain, a: Claims, b: Claims, c: string)
    requires SameClaims(a, b) && c in a && ClaimOk(domain, a, c) && b[c].status in Statuses(domain)
    ensures ClaimOk(domain, b, c)
  {
    SameClaimsStructure(a, b);
    SameEdges(a, b);
    assert SameClaim(a[c], b[c]);
    forall o' | o' in b[c].obligations ensures ObligationOk(b, o') {
      var i :| 0 <= i < |b[c].obligations| && b[c].obligations[i] == o';
      assert a[c].obligations[i] in a[c].obligations;
      ObligationOkCarries(a, b, a[c].obligations[i], o');
    }
  }

  lemma ValidCarries(domain: Domain, a: Claims, b: Claims)
    requires ValidGraph(domain, a) && SameClaims(a, b)
    requires forall c :: c in b ==> b[c].status in Statuses(domain)
    ensures ValidGraph(domain, b)
  {
    SameClaimsStructure(a, b);
    SameOwners(a, b);
    SameEdges(a, b);
    forall c | c in b ensures DistinctObligations(b[c]) && ClaimOk(domain, b, c) {
      SameObligationIds(a, b, c);
      ClaimOkCarries(domain, a, b, c);
    }
  }

  // ---------- one audit verdict ----------

  predicate Terminal(domain: Domain, claim: Claim) {
    FinalOutcome(domain, claim.status).Some?
  }

  predicate IsClosed(o: Obligation) {
    o.status.ObligationDischarged? || o.status.ObligationRefuted?
  }

  /** A claim only ever advances: evidence does not fall, trust and terminal status are not lost, terminal polarity is
      fixed outside mathematics, and a closed obligation never changes. */
  predicate Advances(domain: Domain, a: Claim, b: Claim) {
    && SameClaim(a, b)
    && Rank(a.evidence) <= Rank(b.evidence)
    && (Trusted(a.trust) ==> Trusted(b.trust))
    && (Terminal(domain, a) ==> Terminal(domain, b))
    && (Terminal(domain, a) && !domain.MathResearch? ==>
          FinalOutcome(domain, b.status) == FinalOutcome(domain, a.status))
    && forall i :: 0 <= i < |a.obligations| && IsClosed(a.obligations[i]) ==> b.obligations[i] == a.obligations[i]
  }

  /** A terminal claim has no open or blocked obligation and no gap. */
  predicate Settled(domain: Domain, claim: Claim) {
    Terminal(domain, claim) ==>
      claim.gaps == [] && forall o :: o in claim.obligations ==> IsClosed(o)
  }

  lemma TransitionStatusKnown(domain: Domain, t: EventType, evidence: Evidence)
    ensures var transition := TransitionFor(domain, t, evidence);
            transition.Some? && transition.value.status.Some? ==> transition.value.status.value in Statuses(domain)
  {
  }

  /** Obligations exist only where the domain has them. */
  predicate ObligationsAllowed(domain: Domain, claim: Claim) {
    !HasProofObligations(domain) ==> claim.obligations == []
  }

  lemma StatusAdvances(domain: Domain, claim: Claim, next: Status, event: Event)
    requires StatusApplies(domain, claim, next) && !Forbidden(domain, claim, Some(next), true)
    ensures Advances(domain, claim, WithStatus(domain, claim, next, event))
    ensures ObligationsAllowed(domain, claim) ==> Settled(domain, WithStatus(domain, claim, next, event))
  {
    StatusIs(domain, claim, next, event);
    if FinalOutcome(domain, next).Some? && HasProofObligations(domain) {
      var closed := if FinalOutcome(domain, next) == Some(Negative) then ObligationRefuted else ObligationDischarged;
      AllClosed(claim.obligations, closed, event.artifactPaths);
    }
  }

  lemma StatusIs(domain: Domain, claim: Claim, next: Status, event: Event)
    ensures WithStatus(domain, claim, next, event).status == next
  {
  }

  /** Closing the obligations closes each of them and leaves the closed ones alone. */
  lemma AllClosed(os: seq<Obligation>, closed: ObligationStatus, paths: seq<string>)
    requires closed == ObligationRefuted || closed == ObligationDischarged
    ensures |ClosedObligations(os, closed, paths)| == |os|
    ensures forall o :: o in ClosedObligations(os, closed, paths) ==> IsClosed(o)
    ensures forall i :: 0 <= i < |os| && IsClosed(os[i]) ==> ClosedObligations(os, closed, paths)[i] == os[i]
  {
    forall o | o in ClosedObligations(os, closed, paths) ensures IsClosed(o) {
      var i :| 0 <= i < |os| && ClosedObligations(os, closed, paths)[i] == o;
      assert o == ClosedObligation(os[i], closed, paths);
    }
  }

  /** The verdict's event moves a claim to a terminal status. */
  predicate Decides(domain: Domain, event: Event, verified: Evidence) {
    var transition := TransitionFor(domain, event.eventType, verified);
    transition.Some? && Final(domain, transition.value)
  }

  lemma EvidenceAdvances(domain: Domain, claim: Claim, transition: Transition, event: Event, verified: Evidence)
    ensures var moved := WithEvidence(claim, transition, event, verified);
            && Advances(domain, claim, moved) && (Settled(domain, claim) <==> Settled(domain, moved))
            && moved.status == claim.status && moved.obligations == claim.obligations
  {
  }

  /** The transition gives a terminal status. */
  predicate Final(domain: Domain, transition: Transition) {
    transition.status.Some? && FinalOutcome(domain, transition.status.value).Some?
  }

  lemma TransitionAdvances(domain: Domain, claim: Claim, event: Event, transition: Transition, verified: Evidence,
                           guardAllows: bool)
    ensures var outcome := ApplyTransition(domain, claim, event, transition, verified, guardAllows);
            outcome.Updated? ==>
              && Advances(domain, claim, outcome.claim)
              && (ObligationsAllowed(domain, claim) ==>
                    (Settled(domain, outcome.claim) <==> Settled(domain, claim) || Final(domain, transition)))
  {
    var moved := WithEvidence(claim, transition, event, verified);
    EvidenceAdvances(domain, claim, transition, event, verified);
    if ApplyTransition(domain, claim, event, transition, verified, guardAllows).Updated?
       && transition.status.Some? && StatusApplies(domain, claim, transition.status.value) {
      StatusAdvances(domain, moved, transition.status.value, event);
      AdvancesTransitive(domain, claim, moved, WithStatus(domain, moved, transition.status.value, event));
    }
  }

  /** An applied verdict advances the claim, and leaves it settled exactly when it was settled before or the verdict
      decides it. */
  lemma PassAdvances(domain: Domain, claim: Claim, event: Event, passes: int, required: int, verified: Evidence,
                     guardAllows: bool)
    ensures var outcome := AuditPass(domain, claim, event, passes, required, verified, guardAllows);
            outcome.Updated? ==>
              && Advances(domain, claim, outcome.claim)
              && (ObligationsAllowed(domain, claim) ==>
                    (Settled(domain, outcome.claim) <==> Settled(domain, claim) || Decides(domain, event, verified)))
              && (claim.status in Statuses(domain) ==> outcome.claim.status in Statuses(domain))
  {
    var transition := TransitionFor(domain, event.eventType, verified);
    TransitionStatusKnown(domain, event.eventType, verified);
    if transition.Some? {
      TransitionAdvances(domain, claim, event, transition.value, verified, guardAllows);
      TransitionStatus(domain, claim, event, transition.value, verified, guardAllows);
    }
  }

  lemma TransitionFlipsIff(domain: Domain, claim: Claim, event: Event, transition: Transition, verified: Evidence,
                           guardAllows: bool)
    requires Terminal(domain, claim)
    ensures var outcome := ApplyTransition(domain, claim, event, transition, verified, guardAllows);
            var next := transition.status;
            (outcome.Updated? && FinalOutcome(domain, outcome.claim.status) != FinalOutcome(domain, claim.status)) <==>
              && domain.MathResearch? && guardAllows && next.Some? && FinalOutcome(domain, next.value).Some?
              && FinalOutcome(domain, next.value) != FinalOutcome(domain, claim.status)
  {
    TransitionStatus(domain, claim, event, transition, verified, guardAllows);
  }

  /** The status a transition leaves. */
  lemma TransitionStatus(domain: Domain, claim: Claim, event: Event, transition: Transition, verified: Evidence,
                         guardAllows: bool)
    ensures var outcome := ApplyTransition(domain, claim, event, transition, verified, guardAllows);
            outcome.Updated? ==>
              outcome.claim.status
              == if transition.status.Some? && StatusApplies(domain, claim, transition.status.value)
                 then transition.status.value else claim.status
  {
    if transition.status.Some? {
      StatusIs(domain, WithEvidence(claim, transition, event, verified), transition.status.value, event);
    }
  }

  /** An audit can turn a proved claim into a failed one, or back, only in mathematics: it does so exactly when enough
      passes carry an event of the opposite polarity past the evidence check and the guard. */
  lemma PolarityFlipsIff(domain: Domain, claim: Claim, event: Event, passes: int, required: int, verified: Evidence,
                         guardAllows: bool)
    requires Terminal(domain, claim)
    ensures var outcome := AuditPass(domain, claim, event, passes, required, verified, guardAllows);
            var transition := TransitionFor(domain, event.eventType, verified);
            (outcome.Updated? && FinalOutcome(domain, outcome.claim.status) != FinalOutcome(domain, claim.status)) <==>
              && domain.MathResearch? && guardAllows && passes >= required
              && transition.Some? && transition.value.status.Some?
              && FinalOutcome(domain, transition.value.status.value).Some?
              && FinalOutcome(domain, transition.value.status.value) != FinalOutcome(domain, claim.status)
  {
    var transition := TransitionFor(domain, event.eventType, verified);
    if transition.Some? {
      TransitionFlipsIff(domain, claim, event, transition.value, verified, guardAllows);
    }
  }

  // ---------- a new candidate ----------

  function AllObligationIds(claims: Claims): set<string> {
    set c, id | c in claims && id in ObligationIds(claims[c]) :: id
  }

  /** What a new candidate must satisfy for the graph to stay valid: a non-blank id that is no obligation's, and, where
      claims carry proof obligations, an obligation id of its own and a dependency list without repetition. */
  ghost predicate Fresh(domain: Domain, claims: Claims, event: Event, naming: Naming) {
    && NonBlank(event.claimId) && event.claimId !in AllObligationIds(claims)
    && (HasProofObligations(domain) ==>
          var id := naming(event.claimId, AUDIT_PENDING_GAP);
          && NonBlank(id) && id != event.claimId && id !in claims && id !in AllObligationIds(claims)
          && Distinct(event.dependencies))
  }

  lemma GapIsNotBlank()
    ensures NonBlank(AUDIT_PENDING_GAP)
  {
    assert !IsSpace(AUDIT_PENDING_GAP[0]);
  }

  /** The claim a new candidate becomes. */
  lemma NewClaimIs(domain: Domain, event: Event, naming: Naming)
    ensures var claim := CandidateClaim(domain, event);
            var obligation := Obligation(naming(event.claimId, AUDIT_PENDING_GAP), AUDIT_PENDING_GAP, ObligationOpen,
                                         event.dependencies, []);
            WithObligations(domain, event.claimId, claim, naming)
            == Some(if HasProofObligations(domain) then claim.(obligations := [obligation]) else claim)
  {
    GapIsNotBlank();
    var claim := CandidateClaim(domain, event);
    assert claim.gaps[..0] == [];
    assert NonBlanks(claim.gaps) == [AUDIT_PENDING_GAP];
    assert [AUDIT_PENDING_GAP][..0] == [];
    assert Dedupe([AUDIT_PENDING_GAP]) == [AUDIT_PENDING_GAP];
    assert ObligationStatements(claim) == [AUDIT_PENDING_GAP];
    if HasProofObligations(domain) {
      assert WithObligations(domain, event.claimId, claim, naming).value.obligations
          == [InitialObligation(event.claimId, claim, AUDIT_PENDING_GAP, naming)];
    }
  }

  /** Adding a claim nothing refers to leaves what the others resolve to. */
  lemma OldClaimsKeepShape(claims: Claims, id: string, claim: Claim, c: string)
    requires id !in claims && OwnersDisjoint(claims[id := claim]) && c in claims && ShapeOk(claims, c)
    ensures ShapeOk(claims[id := claim], c)
    ensures ResolvedSet(claims[id := claim], c) == ResolvedSet(claims, c)
  {
    var after := claims[id := claim];
    forall d | d in References(claims[c]) ensures Resolve(after, d) == Resolve(claims, d) {
      if d !in claims {
        var o := Resolve(claims, d).value;
        assert o in after && d in ObligationIds(after[o]);
        assert d != id;
      }
    }
  }

  lemma NewEdges(claims: Claims, id: string, claim: Claim)
    requires id !in claims && OwnersDisjoint(claims[id := claim])
    requires forall c :: c in claims ==> ShapeOk(claims, c)
    ensures var g := Edges(claims[id := claim]);
            forall c :: c in claims ==> g[c] == Edges(claims)[c]
  {
    forall c | c in claims ensures Edges(claims[id := claim])[c] == Edges(claims)[c] {
      OldClaimsKeepShape(claims, id, claim, c);
    }
  }

  /** A node without incoming edges is on no cycle. */
  lemma SourceAddsNoCycle(g: Graph, g': Graph, id: string)
    requires Closed(g) && id !in g && g'.Keys == g.Keys + {id} && id !in g'[id]
    requires forall c :: c in g ==> g'[c] == g[c]
    requires !Cyclic(g)
    ensures !Cyclic(g')
  {
    if Cyclic(g') {
      var p :| IsPath(g', p) && |p| > 1 && p[0] == p[|p| - 1];
      forall i | 0 <= i < |p| ensures p[i] in g {
        var k := if i == 0 then |p| - 1 else i;
        assert p[k - 1 + 1] in g'[p[k - 1]];
      }
      forall i | 0 <= i < |p| - 1 ensures p[i + 1] in g[p[i]] {
        assert p[i + 1] in g'[p[i]];
      }
      assert IsPath(g, p);
    }
  }

  lemma OwnersStayDisjoint(claims: Claims, id: string, claim: Claim)
    requires OwnersDisjoint(claims) && id !in claims && id !in AllObligationIds(claims)
    requires ObligationIds(claim) !! claims.Keys + {id} + AllObligationIds(claims)
    ensures OwnersDisjoint(claims[id := claim])
  {
    var after := claims[id := claim];
    forall c | c in after ensures ObligationIds(after[c]) !! after.Keys {
      if c != id {
        forall x | x in ObligationIds(claims[c]) ensures x != id {
          assert x in AllObligationIds(claims);
        }
      }
    }
    forall c | c in claims ensures ObligationIds(claims[c]) <= AllObligationIds(claims) {
    }
    forall c, d | c in after && d in after && c != d ensures ObligationIds(after[c]) !! ObligationIds(after[d]) {
      if c != id && d != id {
        assert ObligationIds(claims[c]) !! ObligationIds(claims[d]);
      }
    }
  }

  lemma OldClaimStaysOk(domain: Domain, claims: Claims, id: string, claim: Claim, c: string)
    requires id !in claims && OwnersDisjoint(claims[id := claim]) && c in claims && ClaimOk(domain, claims, c)
    ensures ClaimOk(domain, claims[id := claim], c)
  {
    var after := claims[id := claim];
    OldClaimsKeepShape(claims, id, claim, c);
    forall o | o in claims[c].obligations ensures ObligationOk(after, o) {
      forall d | d in o.dependencies ensures d in after || exists e :: e in after && d in ObligationIds(after[e]) {
        if d !in claims {
          var e :| e in claims && d in ObligationIds(claims[e]);
          assert d in ObligationIds(after[e]);
        }
      }
    }
  }

  lemma ValidIdsNotBlank(domain: Domain, claims: Claims)
    requires WellFormed(domain, claims)
    ensures forall c :: c in claims ==> NonBlank(c) && c != "" && ShapeOk(claims, c)
  {
    forall c | c in claims ensures NonBlank(c) && c != "" && ShapeOk(claims, c) {
      assert ClaimOk(domain, claims, c);
    }
  }

  lemma NewClaimShape(domain: Domain, claims: Claims, event: Event, claim: Claim)
    requires WellFormed(domain, claims) && event.claimId !in claims && NonBlank(event.claimId)
    requires Elements(event.dependencies) <= claims.Keys && claim.dependencies == event.dependencies
    requires DistinctObligations(claim) && "" !in ObligationIds(claim) && References(claim) <= Elements(event.dependencies)
    requires OwnersDisjoint(claims[event.claimId := claim])
    ensures ShapeOk(claims[event.claimId := claim], event.claimId)
    ensures event.claimId !in Edges(claims[event.claimId := claim])[event.claimId]
  {
    var after := claims[event.claimId := claim];
    ValidIdsNotBlank(domain, claims);
    forall d | d in Elements(event.dependencies) ensures d in after && d != "" && Resolve(after, d) == Some(d) {
      assert d in claims;
    }
    forall d | d in claim.dependencies ensures d in after && d != "" {
      assert d in Elements(event.dependencies);
    }
  }

  lemma NewClaimOk(domain: Domain, claims: Claims, event: Event, naming: Naming, claim: Claim)
    requires event.claimId !in claims && Fresh(domain, claims, event, naming)
    requires Elements(event.dependencies) <= claims.Keys
    requires event.parent.Some? ==> event.parent.value in claims
    requires WithObligations(domain, event.claimId, CandidateClaim(domain, event), naming) == Some(claim)
    requires ShapeOk(claims[event.claimId := claim], event.claimId)
    ensures ClaimOk(domain, claims[event.claimId := claim], event.claimId)
  {
    var after := claims[event.claimId := claim];
    NewClaimIs(domain, event, naming);
    GapIsNotBlank();
    forall d | d in event.dependencies ensures d in after {
      assert d in Elements(event.dependencies);
    }
  }

  lemma NewClaimSimple(domain: Domain, event: Event, naming: Naming, claim: Claim)
    requires WithObligations(domain, event.claimId, CandidateClaim(domain, event), naming) == Some(claim)
    ensures claim.dependencies == event.dependencies && DistinctObligations(claim)
    ensures References(claim) <= Elements(event.dependencies)
  {
    NewClaimIs(domain, event, naming);
  }

  lemma NewObligationIds(domain: Domain, event: Event, naming: Naming, claim: Claim)
    requires WithObligations(domain, event.claimId, CandidateClaim(domain, event), naming) == Some(claim)
    ensures ObligationIds(claim) ==
            if HasProofObligations(domain) then {naming(event.claimId, AUDIT_PENDING_GAP)} else {}
  {
    NewClaimIs(domain, event, naming);
    if HasProofObligations(domain) {
      assert claim.obligations[0] in claim.obligations;
    }
  }

  lemma FreshWellFormed(domain: Domain, claims: Claims, event: Event, naming: Naming, claim: Claim)
    requires WellFormed(domain, claims) && event.claimId !in claims && Fresh(domain, claims, event, naming)
    requires Elements(event.dependencies) <= claims.Keys
    requires event.parent.Some? ==> event.parent.value in claims
    requires WithObligations(domain, event.claimId, CandidateClaim(domain, event), naming) == Some(claim)
    ensures WellFormed(domain, claims[event.claimId := claim])
    ensures event.claimId !in Edges(claims[event.claimId := claim])[event.claimId]
  {
    var id := event.claimId;
    var after := claims[id := claim];
    NewObligationIds(domain, event, naming, claim);
    OwnersStayDisjoint(claims, id, claim);
    NewClaimSimple(domain, event, naming, claim);
    NewClaimShape(domain, claims, event, claim);
    NewClaimOk(domain, claims, event, naming, claim);
    forall c | c in after ensures ClaimOk(domain, after, c) && DistinctObligations(after[c]) {
      if c != id {
        OldClaimStaysOk(domain, claims, id, claim, c);
      }
    }
  }

  lemma FreshKeepsValid(domain: Domain, claims: Claims, event: Event, naming: Naming, claim: Claim)
    requires ValidGraph(domain, claims) && event.claimId !in claims && Fresh(domain, claims, event, naming)
    requires Elements(event.dependencies) <= claims.Keys
    requires event.parent.Some? ==> event.parent.value in claims
    requires WithObligations(domain, event.claimId, CandidateClaim(domain, event), naming) == Some(claim)
    ensures ValidGraph(domain, claims[event.claimId := claim])
  {
    FreshWellFormed(domain, claims, event, naming, claim);
    ValidIdsNotBlank(domain, claims);
    NewEdges(claims, event.claimId, claim);
    SourceAddsNoCycle(Edges(claims), Edges(claims[event.claimId := claim]), event.claimId);
  }

  lemma ValidNeedsFresh(domain: Domain, claims: Claims, event: Event, naming: Naming, claim: Claim)
    requires event.claimId !in claims && ValidGraph(domain, claims[event.claimId := claim])
    requires WithObligations(domain, event.claimId, CandidateClaim(domain, event), naming) == Some(claim)
    ensures Fresh(domain, claims, event, naming)
  {
    var id := event.claimId;
    assert ClaimOk(domain, claims[id := claim], id);
    NewObligationIds(domain, event, naming, claim);
    NewClaimIs(domain, event, naming);
    OthersKeepTheirIds(domain, claims, id, claim);
    if HasProofObligations(domain) {
      assert claim.obligations[0] in claim.obligations;
      assert naming(id, AUDIT_PENDING_GAP) in ObligationIds(claim);
    }
  }

  lemma OwnersApart(domain: Domain, after: Claims, id: string, c: string)
    requires ValidGraph(domain, after) && id in after && c in after && id != c
    ensures forall x :: x in ObligationIds(after[c]) ==> x != id && x !in ObligationIds(after[id])
  {
    assert OwnersDisjoint(after);
  }

  /** In a valid graph no other claim uses the id of a claim, or of one of its obligations, for an obligation. */
  lemma OthersKeepTheirIds(domain: Domain, claims: Claims, id: string, claim: Claim)
    requires id !in claims && ValidGraph(domain, claims[id := claim])
    ensures forall x :: x in AllObligationIds(claims) ==> x != id && x !in ObligationIds(claim)
  {
    var after := claims[id := claim];
    forall c | c in claims ensures forall x :: x in ObligationIds(claims[c]) ==> x != id && x !in ObligationIds(claim) {
      OwnersApart(domain, after, id, c);
      assert after[c] == claims[c];
    }
  }

  /** Registering a candidate in a valid graph keeps it valid exactly when the candidate names an existing claim or is
      fresh. */
  lemma MarkKeepsValidIff(domain: Domain, claims: Claims, event: Event, naming: Naming)
    requires ValidGraph(domain, claims) && MarkCandidate(domain, claims, event, naming).Some?
    ensures ValidGraph(domain, MarkCandidate(domain, claims, event, naming).value) <==>
              event.claimId in claims || Fresh(domain, claims, event, naming)
  {
    if event.claimId !in claims {
      var claim := WithObligations(domain, event.claimId, CandidateClaim(domain, event), naming).value;
      if Fresh(domain, claims, event, naming) {
        FreshKeepsValid(domain, claims, event, naming, claim);
      }
      if ValidGraph(domain, claims[event.claimId := claim]) {
        ValidNeedsFresh(domain, claims, event, naming, claim);
      }
    }
  }

  // ---------- runs ----------

  /** Every claim is still there and has only advanced. */
  ghost predicate Progress(domain: Domain, a: Claims, b: Claims) {
    forall c :: c in a ==> c in b && Advances(domain, a[c], b[c])
  }

  /** A verdict's effect on the claim it is about, if any. */
  function VerdictOn(domain: Domain, claims: Claims, op: GraphOp): Option<Claim>
    requires !op.Mark?
  {
    if op.event.claimId !in claims then None
    else if op.Reject? then
      (if RejectApplies(domain, claims, op.event) then Some(claims[op.event.claimId].(trust := REJECTED)) else None)
    else
      match AuditPass(domain, claims[op.event.claimId], op.event, op.passes, op.required, op.verified, op.guardAllows)
      case Updated(claim) => Some(claim)
      case _ => None
  }

  lemma StepIs(domain: Domain, naming: Naming, claims: Claims, op: GraphOp)
    requires !op.Mark?
    ensures Step(domain, naming, claims, op) ==
            match VerdictOn(domain, claims, op) case None => claims case Some(c) => claims[op.event.claimId := c]
    ensures VerdictOn(domain, claims, op).Some? ==> op.event.claimId in claims
  {
  }

  predicate DecidedBy(domain: Domain, op: GraphOp) {
    op.Pass? && Decides(domain, op.event, op.verified)
  }

  lemma VerdictAdvances(domain: Domain, claims: Claims, op: GraphOp)
    requires !op.Mark?
    ensures var verdict := VerdictOn(domain, claims, op);
            verdict.Some? ==>
              && op.event.claimId in claims
              && var claim := claims[op.event.claimId];
              && Advances(domain, claim, verdict.value)
              && (claim.status in Statuses(domain) ==> verdict.value.status in Statuses(domain))
              && (ObligationsAllowed(domain, claim) ==>
                    (Settled(domain, verdict.value) <==> Settled(domain, claim) || DecidedBy(domain, op)))
  {
    if op.Pass? && op.event.claimId in claims {
      PassAdvances(domain, claims[op.event.claimId], op.event, op.passes, op.required, op.verified, op.guardAllows);
    }
  }

  lemma StepProgress(domain: Domain, naming: Naming, claims: Claims, op: GraphOp)
    ensures Progress(domain, claims, Step(domain, naming, claims, op))
  {
    if !op.Mark? {
      StepIs(domain, naming, claims, op);
      VerdictAdvances(domain, claims, op);
    }
  }

  /** A registration creating a claim is of a fresh one. */
  ghost predicate Allowed(domain: Domain, naming: Naming, claims: Claims, op: GraphOp) {
    op.Mark? && op.event.claimId !in claims ==> Fresh(domain, claims, op.event, naming)
  }

  lemma StepValid(domain: Domain, naming: Naming, claims: Claims, op: GraphOp)
    requires ValidGraph(domain, claims) && Allowed(domain, naming, claims, op)
    ensures ValidGraph(domain, Step(domain, naming, claims, op))
  {
    if op.Mark? {
      if MarkCandidate(domain, claims, op.event, naming).Some? {
        MarkKeepsValidIff(domain, claims, op.event, naming);
      }
    } else {
      StepIs(domain, naming, claims, op);
      VerdictAdvances(domain, claims, op);
      if VerdictOn(domain, claims, op).Some? {
        assert ClaimOk(domain, claims, op.event.claimId);
        VerdictValid(domain, claims, op.event.claimId, VerdictOn(domain, claims, op).value);
      }
    }
  }

  lemma VerdictValid(domain: Domain, claims: Claims, id: string, claim: Claim)
    requires ValidGraph(domain, claims) && id in claims
    requires SameClaim(claims[id], claim) && claim.status in Statuses(domain)
    ensures ValidGraph(domain, claims[id := claim])
  {
    SameAfterVerdict(claims, id, claim);
    ValidCarries(domain, claims, claims[id := claim]);
  }

  lemma SameAfterVerdict(claims: Claims, id: string, claim: Claim)
    requires id in claims && SameClaim(claims[id], claim)
    ensures SameClaims(claims, claims[id := claim])
  {
  }

  lemma AdvancesTransitive(domain: Domain, a: Claim, b: Claim, c: Claim)
    requires Advances(domain, a, b) && Advances(domain, b, c)
    ensures Advances(domain, a, c)
  {
    forall i | 0 <= i < |a.obligations|
      ensures a.obligations[i].id == c.obligations[i].id
              && a.obligations[i].statement == c.obligations[i].statement
              && a.obligations[i].dependencies == c.obligations[i].dependencies
    {
      assert a.obligations[i].id == b.obligations[i].id;
    }
  }

  lemma ProgressTransitive(domain: Domain, a: Claims, b: Claims, c: Claims)
    requires Progress(domain, a, b) && Progress(domain, b, c)
    ensures Progress(domain, a, c)
  {
    forall x | x in a ensures x in c && Advances(domain, a[x], c[x]) {
      AdvancesTransitive(domain, a[x], b[x], c[x]);
    }
  }

  /** Over every run from any graph, evidence, trust and terminal status are never lost, polarity is fixed outside
      mathematics and closed obligations never change. */
  lemma {:induction false} RunProgress(domain: Domain, naming: Naming, claims: Claims, ops: seq<GraphOp>)
    ensures Progress(domain, claims, Run(domain, naming, claims, ops))
  {
    if ops != [] {
      var middle := Run(domain, naming, claims, ops[..|ops| - 1]);
      RunProgress(domain, naming, claims, ops[..|ops| - 1]);
      StepProgress(domain, naming, middle, ops[|ops| - 1]);
      ProgressTransitive(domain, claims, middle, Run(domain, naming, claims, ops));
    }
  }

  /** Over every run whose new candidates are fresh, the graph stays valid. */
  lemma {:induction false} RunKeepsValid(domain: Domain, naming: Naming, claims: Claims, ops: seq<GraphOp>)
    requires ValidGraph(domain, claims)
    requires forall k :: 0 <= k < |ops| ==> Allowed(domain, naming, Run(domain, naming, claims, ops[..k]), ops[k])
    ensures ValidGraph(domain, Run(domain, naming, claims, ops))
  {
    if ops != [] {
      var n := |ops| - 1;
      forall k | 0 <= k < n ensures Allowed(domain, naming, Run(domain, naming, claims, ops[..n][..k]), ops[..n][k]) {
        assert ops[..n][..k] == ops[..k];
      }
      RunKeepsValid(domain, naming, claims, ops[..n]);
      StepValid(domain, naming, Run(domain, naming, claims, ops[..n]), ops[n]);
    }
  }

  // ---------- settled claims ----------

  /** An applied verdict of the step decides the claim. */
  predicate Settles(domain: Domain, claims: Claims, op: GraphOp, c: string) {
    DecidedBy(domain, op) && op.event.claimId == c && VerdictOn(domain, claims, op).Some?
  }

  /** The outcome of the last applied verdict that decided the claim. */
  function LastDecision(domain: Domain, naming: Naming, claims: Claims, ops: seq<GraphOp>, c: string): Option<Outcome> {
    if ops == [] then None
    else
      var n := |ops| - 1;
      if Settles(domain, Run(domain, naming, claims, ops[..n]), ops[n], c)
      then FinalOutcome(domain, TransitionFor(domain, ops[n].event.eventType, ops[n].verified).value.status.value)
      else LastDecision(domain, naming, claims, ops[..n], c)
  }

  lemma StepSettlesIff(domain: Domain, naming: Naming, claims: Claims, op: GraphOp, c: string)
    requires c in claims && ObligationsAllowed(domain, claims[c])
    ensures var after := Step(domain, naming, claims, op);
            && c in after && ObligationsAllowed(domain, after[c])
            && (Settled(domain, after[c]) <==> Settled(domain, claims[c]) || Settles(domain, claims, op, c))
  {
    StepProgress(domain, naming, claims, op);
    if !op.Mark? {
      StepIs(domain, naming, claims, op);
      VerdictAdvances(domain, claims, op);
    }
  }

  /** After any run a claim has neither a gap nor an open obligation beside a terminal status exactly when it had none
      before or an applied verdict of the run decided it. */
  lemma {:induction false} RunSettlesIff(domain: Domain, naming: Naming, claims: Claims, ops: seq<GraphOp>, c: string)
    requires c in claims && ObligationsAllowed(domain, claims[c])
    ensures var after := Run(domain, naming, claims, ops);
            && c in after && ObligationsAllowed(domain, after[c])
            && (Settled(domain, after[c]) <==>
                  Settled(domain, claims[c]) || LastDecision(domain, naming, claims, ops, c).Some?)
  {
    if ops != [] {
      var n := |ops| - 1;
      RunSettlesIff(domain, naming, claims, ops[..n], c);
      StepSettlesIff(domain, naming, Run(domain, naming, claims, ops[..n]), ops[n], c);
    }
  }

  lemma VerdictOutcome(domain: Domain, claims: Claims, op: GraphOp)
    requires !op.Mark? && VerdictOn(domain, claims, op).Some?
    ensures var after := FinalOutcome(domain, VerdictOn(domain, claims, op).value.status);
            after == if DecidedBy(domain, op)
                     then FinalOutcome(domain, TransitionFor(domain, op.event.eventType, op.verified).value.status.value)
                     else FinalOutcome(domain, claims[op.event.claimId].status)
  {
    if op.Pass? {
      var transition := TransitionFor(domain, op.event.eventType, op.verified).value;
      TransitionStatus(domain, claims[op.event.claimId], op.event, transition, op.verified, op.guardAllows);
    }
  }

  lemma StepOutcome(domain: Domain, naming: Naming, claims: Claims, op: GraphOp, c: string)
    requires c in claims
    ensures var after := Step(domain, naming, claims, op);
            && c in after
            && FinalOutcome(domain, after[c].status)
               == if Settles(domain, claims, op, c)
                  then FinalOutcome(domain, TransitionFor(domain, op.event.eventType, op.verified).value.status.value)
                  else FinalOutcome(domain, claims[c].status)
  {
    if !op.Mark? {
      StepIs(domain, naming, claims, op);
      if VerdictOn(domain, claims, op).Some? {
        VerdictOutcome(domain, claims, op);
      }
    }
  }

  lemma {:induction false} OutcomeIsLast(domain: Domain, naming: Naming, claims: Claims, ops: seq<GraphOp>, c: string)
    requires c in claims
    ensures var after, decided := Run(domain, naming, claims, ops), LastDecision(domain, naming, claims, ops, c);
            && c in after
            && FinalOutcome(domain, after[c].status)
               == if decided.Some? then decided else FinalOutcome(domain, claims[c].status)
  {
    if ops != [] {
      var n := |ops| - 1;
      OutcomeIsLast(domain, naming, claims, ops[..n], c);
      StepOutcome(domain, naming, Run(domain, naming, claims, ops[..n]), ops[n], c);
    }
  }

  /** After any run the terminal outcome of a claim is that of the last applied verdict that decided it, or the one it
      had; outside mathematics all of these agree. */
  lemma RunOutcomeIs(domain: Domain, naming: Naming, claims: Claims, ops: seq<GraphOp>, c: string)
    requires c in claims
    ensures var after, decided := Run(domain, naming, claims, ops), LastDecision(domain, naming, claims, ops, c);
            && c in after
            && FinalOutcome(domain, after[c].status)
               == (if decided.Some? then decided else FinalOutcome(domain, claims[c].status))
            && (!domain.MathResearch? && Terminal(domain, claims[c]) && decided.Some? ==>
                  decided == FinalOutcome(domain, claims[c].status))
  {
    OutcomeIsLast(domain, naming, claims, ops, c);
    RunProgress(domain, naming, claims, ops);
    assert Advances(domain, claims[c], Run(domain, naming, claims, ops)[c]);
  }

  lemma NewClaimSettled(domain: Domain, naming: Naming, claims: Claims, event: Event)
    requires event.claimId !in claims
    ensures var after := Step(domain, naming, claims, Mark(event));
            event.claimId in after ==>
              Settled(domain, after[event.claimId]) && ObligationsAllowed(domain, after[event.claimId])
  {
    if MarkCandidate(domain, claims, event, naming).Some? {
      NewClaimIs(domain, event, naming);
      assert FinalOutcome(domain, CandidateStatus(domain)).None?;
    }
  }

  /** A claim the run created is settled. */
  lemma {:induction false} RunCreatesSettled(domain: Domain, naming: Naming, claims: Claims, ops: seq<GraphOp>,
                                             c: string)
    requires c !in claims
    ensures var after := Run(domain, naming, claims, ops);
            c in after ==> Settled(domain, after[c]) && ObligationsAllowed(domain, after[c])
  {
    if ops != [] {
      var n := |ops| - 1;
      var middle := Run(domain, naming, claims, ops[..n]);
      RunCreatesSettled(domain, naming, claims, ops[..n], c);
      if c in middle {
        StepSettlesIff(domain, naming, middle, ops[n], c);
      } else if ops[n].Mark? && ops[n].event.claimId == c {
        NewClaimSettled(domain, naming, middle, ops[n].event);
      } else if !ops[n].Mark? {
        StepIs(domain, naming, middle, ops[n]);
      }
    }
  }

  /** Every terminal claim is settled, and obligations exist only where the domain has them. */
  ghost predicate Tidy(domain: Domain, claims: Claims) {
    forall c :: c in claims ==> Settled(domain, claims[c]) && ObligationsAllowed(domain, claims[c])
  }

  /** A graph whose terminal claims are all settled stays so. */
  lemma RunKeepsTidy(domain: Domain, naming: Naming, claims: Claims, ops: seq<GraphOp>)
    requires Tidy(domain, claims)
    ensures Tidy(domain, Run(domain, naming, claims, ops))
  {
    var after := Run(domain, naming, claims, ops);
    forall c | c in after ensures Settled(domain, after[c]) && ObligationsAllowed(domain, after[c]) {
      if c in claims {
        RunSettlesIff(domain, naming, claims, ops, c);
      } else {
        RunCreatesSettled(domain, naming, claims, ops, c);
      }
    }
  }

  const UNSETTLED: Claim :=
    Claim("s", [], PROVED, CANONICAL_TRUSTED, [], [], [], [], ["independent evidence pending"], None, E0_SPECULATIVE,
          [])

  /** A proved, trusted claim with a gap is accepted: `validate` does not ask terminal claims to be settled. */
  lemma UnsettledExample()
    ensures ValidGraph(MathResearch, map["c" := UNSETTLED]) && !Settled(MathResearch, UNSETTLED)
  {
    var claims := map["c" := UNSETTLED];
    UnsettledWellFormed();
    if Cyclic(Edges(claims)) {
      var p :| IsPath(Edges(claims), p) && |p| > 1 && p[0] == p[|p| - 1];
      HasEdge(Edges(claims), p);
      assert false;
    }
  }

  lemma UnsettledWellFormed()
    ensures WellFormed(MathResearch, map["c" := UNSETTLED])
    ensures forall c :: c in Edges(map["c" := UNSETTLED]) ==> Edges(map["c" := UNSETTLED])[c] == {}
  {
    assert !IsSpace("c"[0]);
  }

  lemma HasEdge(g: Graph, p: seq<string>)
    requires IsPath(g, p) && |p| > 1
    ensures exists n :: n in g && g[n] != {}
  {
    assert p[0 + 1] in g[p[0]];
  }
}
