/** What the claim graph refuses, and what it makes of a claim, said of the claims themselves. */
module ClaimGraphChecks {
  import opened Prelude
  import opened Models
  import opened DomainSemantics
  import opened Digraph
  import opened ClaimGraphModel
  import opened ClaimGraphOps
  import opened ClaimGraphTheorems

  // ---------- validate ----------

  /** No two obligations of the graph share an id, and none has the id of a claim. */
  ghost predicate UniqueIds(claims: Claims) {
    && (forall c, i :: c in claims && 0 <= i < |claims[c].obligations| ==> claims[c].obligations[i].id !in claims)
    && forall c, i, d, j ::
         (c in claims && 0 <= i < |claims[c].obligations| && d in claims && 0 <= j < |claims[d].obligations|
          && claims[c].obligations[i].id == claims[d].obligations[j].id) ==> c == d && i == j
  }

  /** A claim or an obligation of the graph has this id. */
  ghost predicate Exists(claims: Claims, id: string) {
    id in claims || exists c, i :: c in claims && 0 <= i < |claims[c].obligations| && claims[c].obligations[i].id == id
  }

  ghost predicate Complete(domain: Domain, claims: Claims, c: string)
    requires c in claims
  {
    var claim := claims[c];
    && NonBlank(c) && claim.status in Statuses(domain)
    && (forall d :: d in claim.dependencies ==> d in claims)
    && (claim.parent.Some? ==> claim.parent.value != c && claim.parent.value in claims)
    && forall i :: 0 <= i < |claim.obligations| ==>
         var o := claim.obligations[i];
         NonBlank(o.id) && NonBlank(o.statement) && Distinct(o.dependencies)
         && forall d :: d in o.dependencies ==> Exists(claims, d)
  }

  lemma HasId(claim: Claim, id: string)
    ensures id in ObligationIds(claim) <==> exists i :: 0 <= i < |claim.obligations| && claim.obligations[i].id == id
  {
    if i :| 0 <= i < |claim.obligations| && claim.obligations[i].id == id {
      assert claim.obligations[i] in claim.obligations;
    }
    if id in ObligationIds(claim) {
      var o :| o in claim.obligations && o.id == id;
      var i :| 0 <= i < |claim.obligations| && claim.obligations[i] == o;
    }
  }

  lemma ExistsIff(claims: Claims, id: string)
    ensures Exists(claims, id) <==> id in claims || exists c :: c in claims && id in ObligationIds(claims[c])
  {
    forall c | c in claims
      ensures id in ObligationIds(claims[c])
              <==> exists i :: 0 <= i < |claims[c].obligations| && claims[c].obligations[i].id == id
    {
      HasId(claims[c], id);
    }
  }

  lemma UniqueThenDisjoint(claims: Claims)
    requires UniqueIds(claims)
    ensures OwnersDisjoint(claims) && forall c :: c in claims ==> DistinctObligations(claims[c])
  {
    forall c, d | c in claims && d in claims && c != d ensures ObligationIds(claims[c]) !! ObligationIds(claims[d]) {
      forall x | x in ObligationIds(claims[c]) ensures x !in ObligationIds(claims[d]) {
        HasId(claims[c], x);
        HasId(claims[d], x);
      }
    }
    forall c | c in claims ensures ObligationIds(claims[c]) !! claims.Keys {
      forall x | x in ObligationIds(claims[c]) ensures x !in claims {
        HasId(claims[c], x);
      }
    }
  }

  lemma DisjointThenUnique(claims: Claims)
    requires OwnersDisjoint(claims) && forall c :: c in claims ==> DistinctObligations(claims[c])
    ensures UniqueIds(claims)
  {
    forall c, i | c in claims && 0 <= i < |claims[c].obligations|
      ensures claims[c].obligations[i].id in ObligationIds(claims[c]) && claims[c].obligations[i].id !in claims
    {
      HasId(claims[c], claims[c].obligations[i].id);
    }
  }

  lemma ClaimOkCompletes(domain: Domain, claims: Claims, c: string)
    requires c in claims && ClaimOk(domain, claims, c)
    ensures Complete(domain, claims, c)
  {
    var claim := claims[c];
    forall i | 0 <= i < |claim.obligations|
      ensures ObligationOk(claims, claim.obligations[i])
      ensures forall d :: d in claim.obligations[i].dependencies ==> Exists(claims, d)
    {
      assert claim.obligations[i] in claim.obligations;
      forall d | d in claim.obligations[i].dependencies ensures Exists(claims, d) {
        ExistsIff(claims, d);
      }
    }
  }

  lemma CompleteObligations(domain: Domain, claims: Claims, c: string)
    requires c in claims && Complete(domain, claims, c)
    ensures forall o :: o in claims[c].obligations ==> ObligationOk(claims, o)
    ensures "" !in ObligationIds(claims[c])
    ensures forall d :: d in References(claims[c]) ==> Exists(claims, d)
  {
    var claim := claims[c];
    forall o | o in claim.obligations ensures ObligationOk(claims, o) && o.id != "" {
      var i :| 0 <= i < |claim.obligations| && claim.obligations[i] == o;
      forall d | d in o.dependencies ensures d in claims || exists e :: e in claims && d in ObligationIds(claims[e]) {
        ExistsIff(claims, d);
      }
    }
    forall d | d in References(claim) ensures Exists(claims, d) {
      var o :| o in claim.obligations && d in o.dependencies;
      var i :| 0 <= i < |claim.obligations| && claim.obligations[i] == o;
    }
  }

  lemma CompleteResolves(domain: Domain, claims: Claims, c: string)
    requires OwnersDisjoint(claims) && c in claims && Complete(domain, claims, c) && DistinctObligations(claims[c])
    requires forall d :: d in claims ==> Complete(domain, claims, d)
    ensures ClaimOk(domain, claims, c)
  {
    CompleteObligations(domain, claims, c);
    forall d | d in References(claims[c]) ensures d != "" && Resolve(claims, d).Some? && Resolve(claims, d).value != "" {
      ExistsIff(claims, d);
      if d !in claims {
        var e :| e in claims && d in ObligationIds(claims[e]);
        CompleteObligations(domain, claims, e);
      }
      assert Resolve(claims, d).Some?;
      assert Resolve(claims, d).value in claims;
    }
  }

  /** A graph is valid exactly when obligation ids are unique and no claim ids, every claim is complete, and the resolved
      dependencies have no cycle. */
  lemma ValidGraphIff(domain: Domain, claims: Claims)
    ensures ValidGraph(domain, claims) <==>
              && UniqueIds(claims) && (forall c :: c in claims ==> Complete(domain, claims, c))
              && !Cyclic(Edges(claims))
  {
    if WellFormed(domain, claims) {
      DisjointThenUnique(claims);
      forall c | c in claims ensures Complete(domain, claims, c) {
        ClaimOkCompletes(domain, claims, c);
      }
    }
    if UniqueIds(claims) && forall c :: c in claims ==> Complete(domain, claims, c) {
      UniqueThenDisjoint(claims);
      forall c | c in claims ensures ClaimOk(domain, claims, c) {
        CompleteResolves(domain, claims, c);
      }
    }
  }

  /** `d` is another claim that `c` depends on, by its own list or by an obligation that names `d` or one of its
      obligations. */
  ghost predicate DependsOn(claims: Claims, c: string, d: string)
    requires c in claims
  {
    && d != c && d in claims
    && (d in claims[c].dependencies
        || exists ref :: ref in References(claims[c]) && (ref == d || ref in ObligationIds(claims[d])))
  }

  /** The edges of a valid graph are these dependencies. */
  lemma EdgesAre(domain: Domain, claims: Claims, c: string, d: string)
    requires WellFormed(domain, claims) && c in claims
    ensures d in Edges(claims)[c] <==> DependsOn(claims, c, d)
  {
    assert ClaimOk(domain, claims, c);
    assert forall x :: x in claims[c].dependencies <==> x in Elements(claims[c].dependencies);
    forall ref | ref in References(claims[c])
      ensures d in claims ==> (Resolve(claims, ref) == Some(d) <==> ref == d || ref in ObligationIds(claims[d]))
    {
      ResolvesTo(claims, ref, d);
    }
  }

  lemma ResolvesTo(claims: Claims, ref: string, d: string)
    requires OwnersDisjoint(claims) && Resolve(claims, ref).Some?
    ensures d in claims ==> (Resolve(claims, ref) == Some(d) <==> ref == d || ref in ObligationIds(claims[d]))
  {
  }

  // ---------- mark_candidate ----------

  /** The candidate is the claim of this statement, these assumptions, dependencies and parent. */
  ghost predicate SameStatement(a: Event, statement: string, assumptions: seq<string>, dependencies: seq<string>,
                                parent: Option<string>) {
    && Words(a.statement) == Words(statement)
    && (forall x :: x in a.assumptions ==> exists y :: y in assumptions && Words(x) == Words(y))
    && (forall y :: y in assumptions ==> exists x :: x in a.assumptions && Words(x) == Words(y))
    && (forall d :: d in a.dependencies <==> d in dependencies)
    && a.parent == parent
  }

  lemma SameTextsIff(a: seq<string>, b: seq<string>)
    ensures SameTexts(a, b) <==>
              && (forall x :: x in a ==> exists y :: y in b && Words(x) == Words(y))
              && (forall y :: y in b ==> exists x :: x in a && Words(x) == Words(y))
  {
    var wa, wb := set x | x in a :: Words(x), set x | x in b :: Words(x);
    if wa == wb {
      forall x | x in a ensures exists y :: y in b && Words(x) == Words(y) {
        assert Words(x) in wb;
      }
      forall y | y in b ensures exists x :: x in a && Words(x) == Words(y) {
        assert Words(y) in wa;
      }
    }
  }

  lemma SameElementsIff(a: seq<string>, b: seq<string>)
    ensures Elements(a) == Elements(b) <==> forall d :: d in a <==> d in b
  {
    assert forall d :: d in a <==> d in Elements(a);
    assert forall d :: d in b <==> d in Elements(b);
  }

  lemma RestatesIff(event: Event, claim: Claim)
    ensures Restates(event, claim) <==>
              SameStatement(event, claim.statement, claim.assumptions, claim.dependencies, claim.parent)
  {
    SameTextsIff(event.assumptions, claim.assumptions);
    SameElementsIff(event.dependencies, claim.dependencies);
  }

  /** Registering a candidate raises exactly on an event the domain does not know, a dependency that is no claim, a
      parent that is no claim, or another claim under its id; a claim that is there is left as it is. */
  lemma MarkRaisesIff(domain: Domain, claims: Claims, event: Event, naming: Naming)
    ensures var marked, there := MarkCandidate(domain, claims, event, naming), event.claimId in claims;
            && (marked.None? <==>
                  || EventTransition(domain, event.eventType).None?
                  || (exists d :: d in event.dependencies && d !in claims)
                  || (there && var c := claims[event.claimId];
                      !SameStatement(event, c.statement, c.assumptions, c.dependencies, c.parent))
                  || (!there && event.parent.Some? && event.parent.value !in claims))
            && (marked.Some? && there ==> marked.value == claims)
            && (marked.Some? && !there ==> marked.value.Keys == claims.Keys + {event.claimId}
                                           && marked.value - {event.claimId} == claims)
  {
    assert forall d :: d in event.dependencies <==> d in Elements(event.dependencies);
    if event.claimId in claims {
      RestatesIff(event, claims[event.claimId]);
    } else {
      NewClaimIs(domain, event, naming);
    }
  }

  /** A second candidate for a claim just registered is accepted exactly when it says the same; then nothing changes. */
  lemma SecondCandidateIff(domain: Domain, claims: Claims, first: Event, second: Event, naming: Naming)
    requires first.claimId !in claims && second.claimId == first.claimId
    requires MarkCandidate(domain, claims, first, naming).Some?
    requires EventTransition(domain, second.eventType).Some?
    ensures var once := MarkCandidate(domain, claims, first, naming).value;
            var twice := MarkCandidate(domain, once, second, naming);
            && (twice.Some? <==>
                  SameStatement(second, first.statement, first.assumptions, first.dependencies, first.parent))
            && (twice.Some? ==> twice.value == once)
  {
    var once := MarkCandidate(domain, claims, first, naming).value;
    NewClaimIs(domain, first, naming);
    MarkRaisesIff(domain, claims, first, naming);
    MarkRaisesIff(domain, once, second, naming);
    if SameStatement(second, first.statement, first.assumptions, first.dependencies, first.parent) {
      forall d | d in second.dependencies ensures d in once {
        assert d in first.dependencies;
      }
    }
  }

  // ---------- obligations of a claim that has none ----------

  /** In mathematics a claim without obligations gets one for each of its gaps that is not blank, or for its statement,
      closed only if the claim is trusted and proved or failed; elsewhere a claim must have none. */
  lemma EnsuredObligations(domain: Domain, id: string, claim: Claim, naming: Naming)
    ensures var ensured := WithObligations(domain, id, claim, naming);
            && (ensured.None? <==> !domain.MathResearch? && claim.obligations != [])
            && (ensured.Some? && (!domain.MathResearch? || claim.obligations != []) ==> ensured.value == claim)
            && (domain.MathResearch? && claim.obligations == [] ==>
                  && ensured.value == claim.(obligations := ensured.value.obligations)
                  && Covers(claim, ensured.value.obligations)
                  && forall o :: o in ensured.value.obligations ==> Begins(id, claim, o, naming))
  {
    if domain.MathResearch? && claim.obligations == [] {
      NonBlanksAre(claim.gaps);
      var statements := ObligationStatements(claim);
      var os := WithObligations(domain, id, claim, naming).value.obligations;
      assert forall i :: 0 <= i < |os| ==> os[i] == InitialObligation(id, claim, statements[i], naming);
      CoversAll(claim, statements, os);
    }
  }

  /** One obligation for each statement, in some order. */
  ghost predicate Covers(claim: Claim, os: seq<Obligation>) {
    && (forall i, j :: 0 <= i < j < |os| ==> os[i].statement != os[j].statement)
    && forall x :: (exists i :: 0 <= i < |os| && os[i].statement == x) <==>
         if exists g :: g in claim.gaps && NonBlank(g) then x in claim.gaps && NonBlank(x) else x == claim.statement
  }

  predicate Begins(id: string, claim: Claim, o: Obligation, naming: Naming) {
    var trusted := claim.trust in {CANONICAL_TRUSTED, AUDITED_NIGHTLY, FORMALLY_VERIFIED};
    && o.id == naming(id, o.statement) && o.dependencies == claim.dependencies
    && (o.status == ObligationDischarged <==> trusted && claim.status == PROVED)
    && (o.status == ObligationRefuted <==> trusted && claim.status == FAILED)
    && o.status != ObligationBlocked
    && o.evidencePaths == if o.status == ObligationOpen then [] else claim.evidencePaths
  }

  lemma {:induction false} NonBlanksAre(s: seq<string>)
    ensures forall x :: x in NonBlanks(s) <==> x in s && NonBlank(x)
  {
    if s != [] {
      assert s == s[..|s| - 1] + [s[|s| - 1]];
      NonBlanksAre(s[..|s| - 1]);
    }
  }

  lemma CoversAll(claim: Claim, statements: seq<string>, os: seq<Obligation>)
    requires statements == ObligationStatements(claim)
    requires |os| == |statements| && forall i :: 0 <= i < |os| ==> os[i].statement == statements[i]
    ensures Covers(claim, os)
  {
    StatementsAre(claim);
    forall x ensures (exists i :: 0 <= i < |os| && os[i].statement == x) <==> x in statements {
      if x in statements {
        var i :| 0 <= i < |statements| && statements[i] == x;
        assert os[i].statement == x;
      }
    }
  }

  lemma StatementsAre(claim: Claim)
    ensures Distinct(ObligationStatements(claim))
    ensures forall x :: x in ObligationStatements(claim) <==>
              if exists g :: g in claim.gaps && NonBlank(g) then x in claim.gaps && NonBlank(x) else x == claim.statement
  {
    NonBlanksAre(claim.gaps);
    var gaps := Dedupe(NonBlanks(claim.gaps));
    if gaps != [] {
      assert gaps[0] in gaps;
    }
    if exists g :: g in claim.gaps && NonBlank(g) {
      var g :| g in claim.gaps && NonBlank(g);
      assert g in gaps;
    }
  }
}
