/** `ClaimGraph`: its traversals and its updates, as the source's loops. */
module ClaimGraph {
  import opened Prelude
  import opened Models
  import opened DomainSemantics
  import opened Digraph
  import opened ClaimGraphModel
  import opened ClaimGraphOps

  function Reverse(s: seq<string>): seq<string> {
    if s == [] then [] else [s[|s| - 1]] + Reverse(s[..|s| - 1])
  }

  lemma {:induction false} ReverseConcat(a: seq<string>, b: seq<string>)
    ensures Reverse(a + b) == Reverse(b) + Reverse(a)
    decreases |b|
  {
    if b == [] {
      assert a + b == a;
    } else {
      assert (a + b)[..|a + b| - 1] == a + b[..|b| - 1];
      ReverseConcat(a, b[..|b| - 1]);
    }
  }

  lemma {:induction false} ReverseTwice(s: seq<string>)
    ensures Reverse(Reverse(s)) == s && Elements(Reverse(s)) == Elements(s)
  {
    if s != [] {
      var n := |s| - 1;
      ReverseTwice(s[..n]);
      ReverseConcat([s[n]], Reverse(s[..n]));
      assert s == s[..n] + [s[n]];
      assert Elements(Reverse(s)) == {s[n]} + Elements(Reverse(s[..n]));
      assert Elements(s) == Elements(s[..n]) + {s[n]};
      assert Reverse([s[n]]) == [s[n]];
    }
  }

  lemma PopTop(g: Graph, pending: seq<string>, order: seq<string>)
    requires Closed(g) && Elements(order) <= g.Keys && Elements(pending) <= g.Keys && pending != []
    ensures var n, rest := pending[|pending| - 1], pending[..|pending| - 1];
            && pending == rest + [n] && Reverse(pending) == [n] + Reverse(rest)
            && n in g && Elements(rest) <= g.Keys && Elements(Reverse(rest)) == Elements(rest)
            && Elements(rest) <= Elements(pending)
            && Elements(Reverse(pending)) <= g.Keys
            && (n in order ==> Preorder(g, Reverse(pending), order) == Preorder(g, Reverse(rest), order))
  {
    var n, rest := pending[|pending| - 1], pending[..|pending| - 1];
    assert n in Elements(pending) && Elements(rest) <= Elements(pending);
    ReverseTwice(rest);
    ReverseTwice(pending);
    assert ([n] + Reverse(rest))[1..] == Reverse(rest);
  }

  lemma ElementsConcat(a: seq<string>, b: seq<string>)
    ensures Elements(a + b) == Elements(a) + Elements(b)
  {
    assert forall x :: x in a + b <==> x in a || x in b;
  }

  lemma ElementsOfOne(x: string)
    ensures Elements([x]) == {x}
  {
  }

  lemma PushedElements(g: Graph, rest: seq<string>, n: string, order: seq<string>)
    requires Closed(g) && Elements(order) <= g.Keys && Elements(rest) <= g.Keys && n in g && n !in order
    ensures var pushed := rest + Reverse(SortSet(g[n]));
            && Elements(order + [n]) == Elements(order) + {n} <= g.Keys
            && Elements(pushed) == Elements(rest) + g[n] <= g.Keys
            && Elements(Reverse(pushed)) == Elements(pushed)
            && Elements(rest + [n]) == Elements(rest) + {n} && Elements(Reverse(rest + [n])) == Elements(rest + [n])
            && Elements(Reverse(rest)) == Elements(rest) && Elements(SortSet(g[n])) == g[n]
            && Reverse(pushed) == SortSet(g[n]) + Reverse(rest)
  {
    var deps := SortSet(g[n]);
    assert Elements(deps) == g[n];
    ElementsOfOne(n);
    ElementsConcat(order, [n]);
    ElementsConcat(rest, [n]);
    ElementsConcat(rest, Reverse(deps));
    ReverseTwice(deps);
    ReverseTwice(rest);
    ReverseTwice(rest + [n]);
    ReverseConcat(rest, Reverse(deps));
    ReverseTwice(rest + Reverse(deps));
  }

  /** Pushing the reversed successors of `n` continues the traversal below `n`. */
  lemma PushSuccessors(g: Graph, rest: seq<string>, n: string, order: seq<string>)
    requires Closed(g) && Elements(order) <= g.Keys && Elements(rest) <= g.Keys && n in g && n !in order
    ensures var pushed := rest + Reverse(SortSet(g[n]));
            && Elements(order + [n]) == Elements(order) + {n} <= g.Keys
            && Elements(pushed) == Elements(rest) + g[n] <= g.Keys
            && Elements(Reverse(pushed)) <= g.Keys && Elements(Reverse(rest + [n])) <= g.Keys
            && Preorder(g, Reverse(rest + [n]), order) == Preorder(g, Reverse(pushed), order + [n])
  {
    PushedElements(g, rest, n, order);
    assert (rest + [n])[..|rest|] == rest;
    PopTop(g, rest + [n], order);
    assert ([n] + Reverse(rest))[1..] == Reverse(rest);
    PreorderConcat(g, SortSet(g[n]), Reverse(rest), order + [n]);
  }

  class ClaimGraph {
    const domain: Domain
    const naming: Naming
    var claims: Claims
    /** The dictionary's insertion order, in which the loops walk it. */
    var keys: seq<string>

    constructor (domain: Domain, naming: Naming, claims: Claims, keys: seq<string>)
      ensures this.domain == domain && this.claims == claims && this.keys == keys
    {
      this.domain, this.naming, this.claims, this.keys := domain, naming, claims, keys;
    }

    predicate Ordered()
      reads this
    {
      Distinct(keys) && Elements(keys) == claims.Keys
    }

    /** `dependency_claim_closure`: the loop over an explicit stack is the recursive preorder traversal. */
    method DependencyClosure(root: string) returns (closure: Option<seq<string>>)
      ensures closure.Some? <==>
                root in claims && forall n :: Reaches(Edges(claims), root, n) ==> ShapeOk(claims, n)
      ensures closure.Some? ==>
                && Elements([root]) <= Edges(claims).Keys
                && closure.value == Preorder(Edges(claims), [root], [])
    {
      if root !in claims {
        return None;
      }
      ghost var g := Edges(claims);
      ghost var all := Preorder(g, [root], []);
      var order: seq<string> := [];
      var pending := [root];
      var seen: set<string> := {};
      assert Reverse(pending) == [root];
      ReachesSelf(g, root);
      while pending != []
        invariant Elements(pending) <= g.Keys && Elements(order) <= g.Keys && Elements(Reverse(pending)) <= g.Keys
        invariant seen == Elements(order)
        invariant Preorder(g, Reverse(pending), order) == all
        invariant forall n :: n in Elements(pending) ==> Reaches(g, root, n)
        invariant forall n :: n in order ==> ShapeOk(claims, n)
        decreases g.Keys - seen, |pending|
      {
        var n := pending[|pending| - 1];
        var rest := pending[..|pending| - 1];
        PopTop(g, pending, order);
        pending := rest;
        if n in seen {
          continue;
        }
        var dependencies := ResolvedDependencies(claims, n);
        seen := seen + {n};
        if dependencies.None? {
          return None;
        }
        PushSuccessors(g, rest, n, order);
        forall d | d in g[n] ensures Reaches(g, root, d) {
          ReachesStep(g, root, n, d);
        }
        order := order + [n];
        pending := rest + Reverse(dependencies.value);
      }
      assert Reverse([]) == [];
      PreorderIsReachability(g, root);
      closure := Some(order);
    }

    // ---------- validate ----------

    /** `visit`: `visiting` holds the nodes of the current `path`, `visited` the finished ones, `deps` resolves. */
    static method Visit(deps: string -> seq<string>, ghost g: Graph, node: string, visiting: set<string>,
                        visited: seq<string>, ghost path: seq<string>)
      returns (ok: bool, done: seq<string>)
      requires Closed(g) && forall c :: c in g ==> Elements(deps(c)) == g[c]
      requires visiting <= g.Keys && Elements(visited) <= g.Keys && Finished(g, visited)
      requires Elements(path) == visiting && IsPath(g, path + [node])
      ensures !ok ==> Cyclic(g)
      ensures ok ==> visited <= done && node in done && Finished(g, done) && Elements(done) <= g.Keys
      decreases g.Keys - visiting
    {
      done := visited;
      assert (path + [node])[|path|] == node;
      if node in visiting {
        CycleClosed(g, path, node);
        return false, done;
      }
      if node in visited {
        return true, done;
      }
      assert node in g.Keys - visiting && node !in g.Keys - (visiting + {node});
      var successors := deps(node);
      for i := 0 to |successors|
        invariant visited <= done && Finished(g, done) && Elements(done) <= g.Keys
        invariant Elements(successors[..i]) <= Elements(done)
      {
        assert successors[i] in Elements(successors);
        PathExtends(g, path + [node], successors[i]);
        assert Elements(path + [node]) == visiting + {node};
        ghost var before := done;
        ok, done := Visit(deps, g, successors[i], visiting + {node}, done, path + [node]);
        if !ok {
          return;
        }
        PrefixElements(before, done);
        assert Elements(successors[..i + 1]) == Elements(successors[..i]) + {successors[i]};
      }
      assert successors[..|successors|] == successors;
      FinishedNext(g, done, node);
      ok, done := true, done + [node];
    }

    /** The cycle search of `validate`. */
    static method SearchCycles(deps: string -> seq<string>, ghost g: Graph, keys: seq<string>) returns (ok: bool)
      requires Closed(g) && (forall c :: c in g ==> Elements(deps(c)) == g[c]) && Elements(keys) == g.Keys
      ensures ok <==> !Cyclic(g)
      ensures ok ==> exists rank :: Ranked(g, rank)
    {
      var visited: seq<string> := [];
      for i := 0 to |keys|
        invariant Finished(g, visited) && Elements(visited) <= g.Keys
        invariant Elements(keys[..i]) <= Elements(visited)
      {
        assert keys[i] in Elements(keys);
        assert [] + [keys[i]] == [keys[i]] && IsPath(g, [keys[i]]);
        ghost var before := visited;
        ok, visited := Visit(deps, g, keys[i], {}, visited, []);
        if !ok {
          return;
        }
        PrefixElements(before, visited);
        assert Elements(keys[..i + 1]) == Elements(keys[..i]) + {keys[i]};
      }
      assert keys[..|keys|] == keys;
      FinishedIsRanked(g, visited);
      ghost var rank :| Ranked(g, rank);
      RankedIsAcyclic(g, rank);
      ok := true;
    }

    /** `validate`: true when it does not raise. */
    method Validate() returns (ok: bool)
      requires Ordered()
      ensures ok <==> ValidGraph(domain, claims)
      ensures ok ==> exists rank :: Ranked(Edges(claims), rank)
    {
      if !WellFormed(domain, claims) {
        return false;
      }
      var cs := claims;
      WellFormedResolves(domain, cs);
      ok := SearchCycles(c => ResolvedOrNone(cs, c), Edges(cs), keys);
    }

    // ---------- prune_failed_dependencies ----------

    /** The reasons `prune_failed_dependencies` records for a claim. */
    static function Reasons(dependencies: seq<string>, failed: set<string>, blocked: map<string, seq<string>>):
      (r: seq<string>)
      ensures forall x :: x in r <==> x in dependencies && (x in failed || x in blocked)
    {
      SortSet(Elements(dependencies) * failed) + SortSet(Elements(dependencies) * blocked.Keys)
    }

    /** One pass over all claims: block those with a failed or blocked dependency. */
    static method BlockRound(deps: string -> seq<string>, ghost g: Graph, keys: seq<string>, failed: set<string>,
                             before: map<string, seq<string>>, ghost rank: map<string, nat>, ghost next: nat)
      returns (blocked: map<string, seq<string>>, changed: bool, ghost rank': map<string, nat>, ghost next': nat)
      requires forall c :: c in g ==> Elements(deps(c)) == g[c]
      requires Elements(keys) == g.Keys && Grounded(g, failed, before, rank, next) && Reasoned(g, failed, before, rank)
      ensures InRound(g, failed, before, blocked, changed, rank', next', g.Keys)
      ensures Reasoned(g, failed, blocked, rank')
    {
      blocked, changed, rank', next' := before, false, rank, next;
      for i := 0 to |keys|
        invariant InRound(g, failed, before, blocked, changed, rank', next', Elements(keys[..i]))
        invariant Reasoned(g, failed, blocked, rank')
      {
        var c := keys[i];
        assert c in Elements(keys);
        assert Elements(keys[..i + 1]) == Elements(keys[..i]) + {c};
        var reasons := Reasons(deps(c), failed, blocked);
        ReasonsAreEdges(g, c, deps(c), failed, blocked, reasons);
        if reasons != [] && c !in blocked {
          Blocks(g, failed, before, blocked, changed, rank', next', Elements(keys[..i]), c, reasons);
          rank', next' := rank'[c := next'], next' + 1;
          blocked := blocked[c := reasons];
          changed := true;
        } else {
          Passes(g, failed, before, blocked, changed, rank', next', Elements(keys[..i]), c);
        }
      }
      assert keys[..|keys|] == keys;
    }

    /** The `while changed` loop of `prune_failed_dependencies`. */
    static method Block(deps: string -> seq<string>, ghost g: Graph, keys: seq<string>, failed: set<string>)
      returns (blocked: map<string, seq<string>>)
      requires Closed(g) && (forall c :: c in g ==> Elements(deps(c)) == g[c])
      requires Elements(keys) == g.Keys && failed <= g.Keys
      ensures BlockedExactly(g, failed, blocked)
    {
      ghost var rank: map<string, nat> := map[];
      ghost var next: nat := 0;
      blocked := map[];
      var changed := true;
      while changed
        invariant Grounded(g, failed, blocked, rank, next) && Reasoned(g, failed, blocked, rank)
        invariant !changed ==> Saturated(g, failed, blocked, g.Keys)
        decreases g.Keys - blocked.Keys, changed
      {
        ghost var before := blocked;
        GroundedWithin(g, failed, blocked, rank, next);
        blocked, changed, rank, next := BlockRound(deps, g, keys, failed, blocked, rank, next);
        assert InRound(g, failed, before, blocked, changed, rank, next, g.Keys);
        GroundedWithin(g, failed, blocked, rank, next);
      }
      BlockedIsLeast(g, failed, blocked, rank, next);
    }

    /** `prune_failed_dependencies`: `None` when resolving a claim's dependencies raises. */
    method PruneFailed() returns (result: Option<map<string, seq<string>>>)
      requires Ordered()
      ensures result.Some? <==> forall c :: c in claims ==> ShapeOk(claims, c)
      ensures result.Some? ==> BlockedExactly(Edges(claims), FailedClaims(domain, claims), result.value)
      ensures result.Some? ==> forall c :: c in result.value <==> c in claims && LeadsToRefuted(domain, claims, c)
    {
      var cs := claims;
      if exists c :: c in cs && !ShapeOk(cs, c) {
        return None;
      }
      AllResolve(cs);
      var blocked := Block(c => ResolvedOrNone(cs, c), Edges(cs), keys, FailedClaims(domain, cs));
      forall c ensures c in blocked <==> c in cs && LeadsToRefuted(domain, cs, c) {
        FailedAreRefuted(domain, cs, c);
      }
      result := Some(blocked);
    }

    // ---------- _rebuild_dependents ----------

    /** The append loops: for each claim, the claims seen so far that depend on it. */
    static method CollectDependents(deps: string -> Option<seq<string>>, ghost g: Graph, keys: seq<string>)
      returns (ok: bool, lists: map<string, seq<string>>)
      requires Closed(g) && Elements(keys) == g.Keys
      requires forall c :: c in g && deps(c).Some? ==> Elements(deps(c).value) == g[c] && Distinct(deps(c).value)
      ensures ok <==> forall c :: c in g ==> deps(c).Some?
      ensures ok ==> lists.Keys == g.Keys && forall d :: d in g ==> lists[d] == Incoming(g, keys, d)
    {
      lists := map c | c in keys :: [];
      for i := 0 to |keys|
        invariant lists.Keys == g.Keys
        invariant forall d :: d in g ==> lists[d] == Incoming(g, keys[..i], d)
        invariant forall c :: c in keys[..i] ==> deps(c).Some?
      {
        var c := keys[i];
        assert c in Elements(keys);
        assert keys[..i + 1] == keys[..i] + [c] && keys[..i + 1][..i] == keys[..i];
        if deps(c).None? {
          return false, lists;
        }
        lists := AppendTo(lists, deps(c).value, c);
        forall d | d in g ensures lists[d] == Incoming(g, keys[..i + 1], d) {
          assert d in deps(c).value <==> d in Elements(deps(c).value);
        }
      }
      assert keys[..|keys|] == keys;
      assert forall c :: c in g <==> c in Elements(keys);
      ok := true;
    }

    /** Appends `c` to the list of each of its dependencies. */
    static method AppendTo(before: map<string, seq<string>>, deps: seq<string>, c: string)
      returns (lists: map<string, seq<string>>)
      requires Elements(deps) <= before.Keys && Distinct(deps)
      ensures lists.Keys == before.Keys
      ensures forall d :: d in before ==> lists[d] == if d in deps then before[d] + [c] else before[d]
    {
      lists := before;
      for j := 0 to |deps|
        invariant lists.Keys == before.Keys
        invariant forall d :: d in before ==> lists[d] == if d in deps[..j] then before[d] + [c] else before[d]
      {
        assert deps[j] in Elements(deps);
        assert deps[..j + 1] == deps[..j] + [deps[j]];
        lists := lists[deps[j] := lists[deps[j]] + [c]];
      }
      assert deps[..|deps|] == deps;
    }

    /** The lists `_rebuild_dependents` computes; on a raise, those it had built so far. */
    static method SortedDependents(deps: string -> Option<seq<string>>, ghost g: Graph, keys: seq<string>)
      returns (ok: bool, lists: map<string, seq<string>>)
      requires Closed(g) && Elements(keys) == g.Keys
      requires forall c :: c in g && deps(c).Some? ==> Elements(deps(c).value) == g[c] && Distinct(deps(c).value)
      ensures ok <==> forall c :: c in g ==> deps(c).Some?
      ensures ok ==> lists.Keys == g.Keys && forall d :: d in g ==> lists[d] == SortSet(Predecessors(g, d))
    {
      ok, lists := CollectDependents(deps, g, keys);
      if ok {
        forall d | d in g ensures Elements(lists[d]) == Predecessors(g, d) {
          IncomingElements(g, keys, d);
          assert forall n :: n in keys <==> n in Elements(keys);
        }
        lists := map d | d in lists :: SortSet(Elements(lists[d]));
      }
    }

    /** `_rebuild_dependents`: afterwards each claim lists, sorted, exactly the claims that depend on it. */
    method RebuildDependents() returns (ok: bool)
      requires Ordered()
      modifies this`claims
      ensures Ordered() && SameStructure(old(claims), claims)
      ensures ok <==> forall c :: c in old(claims) ==> ShapeOk(old(claims), c)
      ensures ok ==> forall d :: d in claims ==>
                claims[d] == old(claims)[d].(dependents := SortSet(Predecessors(Edges(old(claims)), d)))
    {
      ResolvedAreDistinct(claims);
      var lists;
      ok, lists := SortedDependents(Resolver(claims), Edges(claims), keys);
      claims := WithDependents(claims, lists);
    }

    // ---------- candidates and audits ----------

    /** `mark_candidate`: false when it raises. */
    method RegisterCandidate(event: Event) returns (ok: bool)
      requires Ordered()
      modifies this
      ensures Ordered()
      ensures match MarkCandidate(domain, old(claims), event, naming)
              case None => !ok && claims == old(claims) && keys == old(keys)
              case Some(after) =>
                ok && claims == after
                && keys == if event.claimId in old(claims) then old(keys) else old(keys) + [event.claimId]
    {
      if EventTransition(domain, event.eventType).None? || !(Elements(event.dependencies) <= claims.Keys) {
        return false;
      }
      if event.claimId in claims {
        return Restates(event, claims[event.claimId]);
      }
      if event.parent.Some? && event.parent.value !in claims {
        return false;
      }
      var claim := WithObligations(domain, event.claimId, CandidateClaim(domain, event), naming);
      if claim.None? {
        return false;
      }
      assert event.claimId !in Elements(keys);
      assert Elements(keys + [event.claimId]) == Elements(keys) + {event.claimId};
      claims := claims[event.claimId := claim.value];
      keys := keys + [event.claimId];
      ok := true;
    }

    /** The obligation loop of `apply_audit_pass`. */
    static method CloseObligations(obligations: seq<Obligation>, status: ObligationStatus, paths: seq<string>)
      returns (closed: seq<Obligation>)
      ensures closed == ClosedObligations(obligations, status, paths)
    {
      closed := obligations;
      for i := 0 to |obligations|
        invariant |closed| == |obligations|
        invariant forall j :: 0 <= j < i ==> closed[j] == ClosedObligation(obligations[j], status, paths)
        invariant forall j :: i <= j < |obligations| ==> closed[j] == obligations[j]
      {
        if closed[i].status in {ObligationOpen, ObligationBlocked} {
          closed := closed[i := closed[i].(status := status,
                                           evidencePaths := Merged(closed[i].evidencePaths, paths))];
        }
      }
    }

    /** Trust, evidence level and evidence paths. */
    static method AddEvidence(original: Claim, event: Event, transition: Transition, verified: Evidence)
      returns (claim: Claim)
      ensures claim == WithEvidence(original, transition, event, verified)
    {
      claim := original;
      if transition.trustChange {
        claim := claim.(trust := AUDITED_NIGHTLY);
      }
      if Rank(verified) > Rank(claim.evidence) {
        claim := claim.(evidence := verified);
      }
      claim := claim.(evidencePaths := Merged(claim.evidencePaths, event.artifactPaths));
    }

    /** The updates `apply_audit_pass` makes to the claim once its checks pass. */
    static method UpdateClaim(domain: Domain, original: Claim, event: Event, transition: Transition,
                              verified: Evidence)
      returns (claim: Claim)
      ensures var moved := WithEvidence(original, transition, event, verified);
              claim == if transition.status.Some? && StatusApplies(domain, original, transition.status.value)
                       then WithStatus(domain, moved, transition.status.value, event) else moved
    {
      claim := AddEvidence(original, event, transition, verified);
      var next := transition.status;
      if next.Some? && StatusApplies(domain, original, next.value) {
        claim := claim.(status := next.value);
        claim := Settle(domain, claim, event);
      }
    }

    /** What reaching its new status does to the claim's counterexamples, obligations and gaps. */
    static method Settle(domain: Domain, moved: Claim, event: Event) returns (claim: Claim)
      ensures claim == WithStatus(domain, moved, moved.status, event)
    {
      claim := moved;
      var outcome := FinalOutcome(domain, claim.status);
      if outcome == Some(Negative) && domain.MathResearch? {
        claim := claim.(counterexamples := Merged(claim.counterexamples, event.artifactPaths));
      }
      if outcome.Some? {
        var status := if outcome == Some(Negative) then ObligationRefuted else ObligationDischarged;
        if HasProofObligations(domain) {
          var closed := CloseObligations(claim.obligations, status, event.artifactPaths);
          claim := claim.(obligations := closed);
        }
        claim := claim.(gaps := []);
      }
    }

    /** The checks of `apply_audit_pass`, and then its updates. */
    static method AuditClaim(domain: Domain, claim: Claim, event: Event, passes: int, required: int,
                             verified: Evidence, guardAllows: bool)
      returns (outcome: PassOutcome)
      ensures outcome == AuditPass(domain, claim, event, passes, required, verified, guardAllows)
    {
      if passes < required {
        return NoChange;
      }
      var found := TransitionFor(domain, event.eventType, verified);
      if found.None? {
        return Raised;
      }
      var transition := found.value;
      if transition.status.None? && !transition.trustChange {
        return NoChange;
      }
      if Forbidden(domain, claim, transition.status, guardAllows) {
        return Raised;
      }
      var updated := UpdateClaim(domain, claim, event, transition, verified);
      outcome := Updated(updated);
    }

    /** `apply_audit_pass`: false when it raises, and then nothing has changed. */
    method ApplyAuditPass(event: Event, passes: int, required: int, verified: Evidence, guardAllows: bool)
      returns (ok: bool)
      requires Ordered()
      modifies this`claims
      ensures Ordered()
      ensures claims == Step(domain, naming, old(claims), Pass(event, passes, required, verified, guardAllows))
      ensures ok <==> event.claimId in old(claims)
                      && !AuditPass(domain, old(claims)[event.claimId], event, passes, required, verified,
                                    guardAllows).Raised?
      ensures !ok ==> claims == old(claims)
    {
      if event.claimId !in claims {
        return false;
      }
      var outcome := AuditClaim(domain, claims[event.claimId], event, passes, required, verified, guardAllows);
      if outcome.Updated? {
        claims := claims[event.claimId := outcome.claim];
      }
      ok := !outcome.Raised?;
    }

    /** `apply_audit_reject`. */
    method ApplyAuditReject(event: Event) returns (applied: bool)
      requires Ordered()
      modifies this`claims
      ensures Ordered()
      ensures claims == Step(domain, naming, old(claims), GraphOp.Reject(event))
      ensures applied == RejectApplies(domain, old(claims), event)
    {
      applied := RejectApplies(domain, claims, event);
      if applied {
        claims := claims[event.claimId := claims[event.claimId].(trust := REJECTED)];
      }
    }
  }

  // ---------- dependents ----------

  /** The claims of `order` with an edge to `d`. */
  function Incoming(g: Graph, order: seq<string>, d: string): seq<string>
    requires Elements(order) <= g.Keys
  {
    if order == [] then [] else
      var n := order[|order| - 1];
      assert n in Elements(order);
      assert Elements(order[..|order| - 1]) <= Elements(order);
      var earlier := Incoming(g, order[..|order| - 1], d);
      if d in g[n] then earlier + [n] else earlier
  }

  lemma {:induction false} IncomingElements(g: Graph, order: seq<string>, d: string)
    requires Elements(order) <= g.Keys
    ensures Elements(Incoming(g, order, d)) == set n | n in order && d in g[n]
  {
    if order != [] {
      var n := order[|order| - 1];
      assert order == order[..|order| - 1] + [n];
      assert n in Elements(order) && Elements(order[..|order| - 1]) <= Elements(order);
      IncomingElements(g, order[..|order| - 1], d);
      var earlier := Incoming(g, order[..|order| - 1], d);
      assert Elements(earlier + [n]) == Elements(earlier) + {n};
    }
  }

  function Resolver(claims: Claims): string -> Option<seq<string>> {
    c => ResolvedDependencies(claims, c)
  }

  lemma ResolvedAreDistinct(claims: Claims)
    ensures forall c :: c in Edges(claims) && Resolver(claims)(c).Some? ==>
              Elements(Resolver(claims)(c).value) == Edges(claims)[c] && Distinct(Resolver(claims)(c).value)
    ensures (forall c :: c in Edges(claims) ==> Resolver(claims)(c).Some?)
            <==> forall c :: c in claims ==> ShapeOk(claims, c)
  {
    forall c | c in claims && ShapeOk(claims, c)
      ensures Elements(SortSet(ResolvedSet(claims, c))) == Edges(claims)[c]
      ensures Distinct(SortSet(ResolvedSet(claims, c)))
    {
      SortedIsDistinct(SortSet(ResolvedSet(claims, c)));
    }
    if forall c :: c in Edges(claims) ==> Resolver(claims)(c).Some? {
      forall c | c in claims ensures ShapeOk(claims, c) {
        assert Resolver(claims)(c).Some?;
      }
    }
  }

  /** The resolved dependencies of a claim known to resolve. */
  function ResolvedOrNone(claims: Claims, c: string): seq<string> {
    match ResolvedDependencies(claims, c)
    case Some(s) => s
    case None => []
  }

  lemma AllResolve(claims: Claims)
    requires forall c :: c in claims ==> ShapeOk(claims, c)
    ensures forall c :: c in Edges(claims) ==> Elements(ResolvedOrNone(claims, c)) == Edges(claims)[c]
  {
    forall c | c in claims ensures Elements(ResolvedOrNone(claims, c)) == Edges(claims)[c] {
      assert ShapeOk(claims, c);
    }
  }

  lemma WellFormedResolves(domain: Domain, claims: Claims)
    requires WellFormed(domain, claims)
    ensures forall c :: c in Edges(claims) ==> Elements(ResolvedOrNone(claims, c)) == Edges(claims)[c]
  {
    forall c | c in claims ensures ShapeOk(claims, c) {
      assert ClaimOk(domain, claims, c);
    }
    AllResolve(claims);
  }

  // ---------- cycle search ----------

  lemma CycleClosed(g: Graph, path: seq<string>, node: string)
    requires IsPath(g, path + [node]) && node in path
    ensures Cyclic(g)
  {
    var i :| 0 <= i < |path| && path[i] == node;
    var p := (path + [node])[i..];
    forall j | 0 <= j < |p| - 1 ensures p[j + 1] in g[p[j]] {
      assert (path + [node])[i + j + 1] in g[(path + [node])[i + j]];
    }
    assert IsPath(g, p) && |p| > 1 && p[0] == p[|p| - 1];
  }

  lemma PathExtends(g: Graph, path: seq<string>, node: string)
    requires IsPath(g, path) && node in g && node in g[path[|path| - 1]]
    ensures IsPath(g, path + [node])
  {
  }

  lemma FinishedNext(g: Graph, done: seq<string>, node: string)
    requires Finished(g, done) && node in g && g[node] <= Elements(done)
    ensures Finished(g, done + [node])
  {
    var all := done + [node];
    forall i | 0 <= i < |all| ensures all[i] in g && forall d :: d in g[all[i]] ==> d in all[..i] {
      if i < |done| {
        assert all[..i] == done[..i];
      } else {
        assert all[..i] == done;
      }
    }
  }

  // ---------- claims blocked by a refuted dependency ----------

  function FailedClaims(domain: Domain, claims: Claims): set<string> {
    set c | c in claims && DependencyIsRefuting(domain, claims[c].status) && Trusted(claims[c].trust)
  }

  /** A dependency path of at least one edge leads from `c` to a failed claim. */
  ghost predicate DependsOnFailed(g: Graph, failed: set<string>, c: string) {
    exists p :: IsPath(g, p) && |p| > 1 && p[0] == c && p[|p| - 1] in failed
  }

  /** The claim is trusted and has a negative terminal status. */
  predicate TrustedRefuted(domain: Domain, claim: Claim) {
    && claim.trust in {CANONICAL_TRUSTED, AUDITED_NIGHTLY, FORMALLY_VERIFIED}
    && FinalOutcome(domain, claim.status) == Some(Negative)
  }

  /** A dependency path of at least one edge leads from `c` to a trusted claim with a negative terminal status. */
  ghost predicate LeadsToRefuted(domain: Domain, claims: Claims, c: string) {
    exists p :: IsPath(Edges(claims), p) && |p| > 1 && p[0] == c
                && p[|p| - 1] in claims && TrustedRefuted(domain, claims[p[|p| - 1]])
  }

  lemma FailedAreRefuted(domain: Domain, claims: Claims, c: string)
    ensures DependsOnFailed(Edges(claims), FailedClaims(domain, claims), c) <==> LeadsToRefuted(domain, claims, c)
  {
    forall x | x in claims ensures x in FailedClaims(domain, claims) <==> TrustedRefuted(domain, claims[x]) {
    }
  }

  /** The direct dependencies blocked before the claim was. */
  function BlockedEarlier(g: Graph, rank: map<string, nat>, c: string): set<string>
    requires c in g && c in rank
  {
    set d | d in g[c] && d in rank && rank[d] < rank[c]
  }

  lemma EarlierStays(g: Graph, rank: map<string, nat>, c: string, next: nat, x: string)
    requires x in g && x in rank && c !in rank && rank[x] < next
    ensures BlockedEarlier(g, rank[c := next], x) == BlockedEarlier(g, rank, x)
  {
  }

  lemma EarlierNow(g: Graph, rank: map<string, nat>, c: string, next: nat)
    requires c in g && c !in rank && forall x :: x in rank ==> rank[x] < next
    ensures BlockedEarlier(g, rank[c := next], c) == g[c] * rank.Keys
  {
  }

  /** The direct dependencies that failed, sorted, and then those blocked before the claim was, sorted. */
  function ReasonsAt(g: Graph, failed: set<string>, rank: map<string, nat>, c: string): seq<string>
    requires c in g && c in rank
  {
    SortSet(g[c] * failed) + SortSet(BlockedEarlier(g, rank, c))
  }

  /** The reasons of each claim are those at the time it was blocked; `rank` is that order. */
  ghost predicate Reasoned(g: Graph, failed: set<string>, blocked: map<string, seq<string>>, rank: map<string, nat>) {
    forall c :: c in blocked ==> c in g && c in rank && blocked[c] == ReasonsAt(g, failed, rank, c)
  }

  lemma ReasonedNext(g: Graph, failed: set<string>, blocked: map<string, seq<string>>, rank: map<string, nat>,
                     next: nat, c: string, reasons: seq<string>)
    requires Reasoned(g, failed, blocked, rank) && rank.Keys == blocked.Keys && c in g && c !in blocked
    requires forall x :: x in rank ==> rank[x] < next
    requires reasons == SortSet(g[c] * failed) + SortSet(g[c] * blocked.Keys)
    ensures Reasoned(g, failed, blocked[c := reasons], rank[c := next])
  {
    var later, longer := rank[c := next], blocked[c := reasons];
    EarlierNow(g, rank, c, next);
    forall x | x in longer ensures x in g && x in later && longer[x] == ReasonsAt(g, failed, later, x) {
      if x != c {
        EarlierStays(g, rank, c, next, x);
      }
    }
  }

  /** Every reason is a direct dependency that failed or was blocked earlier. */
  ghost predicate Grounded(g: Graph, failed: set<string>, blocked: map<string, seq<string>>, rank: map<string, nat>,
                           next: nat) {
    && rank.Keys == blocked.Keys
    && forall c :: c in blocked ==>
         && c in g && blocked[c] != [] && rank[c] < next
         && forall r :: r in blocked[c] ==> r in g[c] && (r in failed || (r in blocked && rank[r] < rank[c]))
  }

  /** No claim of `cs` still has an unrecorded reason. */
  ghost predicate Saturated(g: Graph, failed: set<string>, blocked: map<string, seq<string>>, cs: set<string>) {
    forall c, d :: c in cs && c in g && d in g[c] && (d in failed || d in blocked) ==> c in blocked
  }

  /** The keys are exactly the claims with a non-empty dependency path to a failed claim; the reasons of each are its
      failed dependencies and those blocked before it, so that following them always leads to a failed claim. */
  ghost predicate BlockedExactly(g: Graph, failed: set<string>, blocked: map<string, seq<string>>) {
    && (forall c :: c in blocked <==> c in g && DependsOnFailed(g, failed, c))
    && exists rank, next :: Grounded(g, failed, blocked, rank, next) && Reasoned(g, failed, blocked, rank)
  }

  lemma ReasonsAreEdges(g: Graph, c: string, dependencies: seq<string>, failed: set<string>,
                        blocked: map<string, seq<string>>, reasons: seq<string>)
    requires c in g && Elements(dependencies) == g[c]
    requires forall x :: x in reasons <==> x in dependencies && (x in failed || x in blocked)
    ensures forall x :: x in reasons ==> x in g[c] && (x in failed || x in blocked)
    ensures reasons == [] ==> forall x :: x in g[c] ==> x !in failed && x !in blocked
  {
    assert forall x :: x in g[c] <==> x in Elements(dependencies);
    forall x | x in g[c] && (x in failed || x in blocked) ensures reasons != [] {
      assert x in dependencies;
      assert x in reasons;
    }
  }

  /** A pass that has looked at `done`: it blocked something new, or found nothing to block there. */
  ghost predicate InRound(g: Graph, failed: set<string>, before: map<string, seq<string>>,
                          blocked: map<string, seq<string>>, changed: bool, rank: map<string, nat>, next: nat,
                          done: set<string>) {
    && Grounded(g, failed, blocked, rank, next)
    && if changed then before.Keys < blocked.Keys else blocked == before && Saturated(g, failed, blocked, done)
  }

  lemma Blocks(g: Graph, failed: set<string>, before: map<string, seq<string>>, blocked: map<string, seq<string>>,
               changed: bool, rank: map<string, nat>, next: nat, done: set<string>, c: string, reasons: seq<string>)
    requires InRound(g, failed, before, blocked, changed, rank, next, done)
    requires c in g && c !in blocked && reasons != []
    requires reasons == SortSet(g[c] * failed) + SortSet(g[c] * blocked.Keys)
    requires forall r :: r in reasons ==> r in g[c] && (r in failed || r in blocked)
    requires Reasoned(g, failed, blocked, rank)
    ensures Reasoned(g, failed, blocked[c := reasons], rank[c := next])
    ensures InRound(g, failed, before, blocked[c := reasons], true, rank[c := next], next + 1, done + {c})
  {
    GroundedNext(g, failed, blocked, rank, next, c, reasons);
    ReasonedNext(g, failed, blocked, rank, next, c, reasons);
    assert c in blocked[c := reasons].Keys && c !in blocked.Keys;
  }

  lemma Passes(g: Graph, failed: set<string>, before: map<string, seq<string>>, blocked: map<string, seq<string>>,
               changed: bool, rank: map<string, nat>, next: nat, done: set<string>, c: string)
    requires InRound(g, failed, before, blocked, changed, rank, next, done)
    requires c in g && (c in blocked || forall x :: x in g[c] ==> x !in failed && x !in blocked)
    ensures InRound(g, failed, before, blocked, changed, rank, next, done + {c})
  {
  }

  lemma GroundedWithin(g: Graph, failed: set<string>, blocked: map<string, seq<string>>, rank: map<string, nat>,
                       next: nat)
    requires Grounded(g, failed, blocked, rank, next)
    ensures blocked.Keys <= g.Keys
  {
  }

  lemma GroundedNext(g: Graph, failed: set<string>, blocked: map<string, seq<string>>, rank: map<string, nat>,
                     next: nat, c: string, reasons: seq<string>)
    requires Grounded(g, failed, blocked, rank, next) && c in g && c !in blocked && reasons != []
    requires forall r :: r in reasons ==> r in g[c] && (r in failed || r in blocked)
    ensures Grounded(g, failed, blocked[c := reasons], rank[c := next], next + 1)
  {
  }

  lemma {:induction false} GroundedReaches(g: Graph, failed: set<string>, blocked: map<string, seq<string>>,
                                           rank: map<string, nat>, next: nat, c: string)
    requires Closed(g) && failed <= g.Keys && Grounded(g, failed, blocked, rank, next) && c in blocked
    ensures DependsOnFailed(g, failed, c)
    decreases rank[c]
  {
    var r := blocked[c][0];
    assert r in blocked[c];
    if r in failed {
      assert IsPath(g, [c, r]);
    } else {
      GroundedReaches(g, failed, blocked, rank, next, r);
      var p :| IsPath(g, p) && |p| > 1 && p[0] == r && p[|p| - 1] in failed;
      var q := [c] + p;
      forall i | 0 <= i < |q| - 1 ensures q[i + 1] in g[q[i]] {
        if i > 0 { assert p[i - 1 + 1] in g[p[i - 1]]; }
      }
      assert IsPath(g, q);
    }
  }

  lemma {:induction false} SaturatedHolds(g: Graph, failed: set<string>, blocked: map<string, seq<string>>,
                                          p: seq<string>)
    requires Saturated(g, failed, blocked, g.Keys) && IsPath(g, p) && |p| > 1 && p[|p| - 1] in failed
    ensures p[0] in blocked
    decreases |p|
  {
    assert p[0 + 1] in g[p[0]];
    if |p| > 2 {
      forall i | 0 <= i < |p[1..]| - 1 ensures p[1..][i + 1] in g[p[1..][i]] {
        assert p[i + 1 + 1] in g[p[i + 1]];
      }
      SaturatedHolds(g, failed, blocked, p[1..]);
    }
  }

  lemma BlockedIsLeast(g: Graph, failed: set<string>, blocked: map<string, seq<string>>, rank: map<string, nat>,
                       next: nat)
    requires Closed(g) && failed <= g.Keys
    requires Grounded(g, failed, blocked, rank, next) && Saturated(g, failed, blocked, g.Keys)
    requires Reasoned(g, failed, blocked, rank)
    ensures BlockedExactly(g, failed, blocked)
  {
    forall c ensures c in blocked <==> c in g && DependsOnFailed(g, failed, c) {
      if c in blocked {
        GroundedReaches(g, failed, blocked, rank, next, c);
      }
      if DependsOnFailed(g, failed, c) {
        var p :| IsPath(g, p) && |p| > 1 && p[0] == c && p[|p| - 1] in failed;
        SaturatedHolds(g, failed, blocked, p);
      }
    }
  }
}
