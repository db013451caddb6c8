/** Claims, the dependencies they resolve to, and what a valid claim graph is. */
module ClaimGraphModel {
  import opened Prelude
  import opened Models
  import opened DomainSemantics
  import opened Digraph

  type Claims = map<string, Claim>

  function ObligationIds(claim: Claim): set<string> {
    set o | o in claim.obligations :: o.id
  }

  /** Everything the claim's obligations depend on. */
  function References(claim: Claim): set<string> {
    set o, d | o in claim.obligations && d in o.dependencies :: d
  }

  /** `_obligation_owners` does not raise: obligation ids are no claim ids and no two claims share one. */
  predicate OwnersDisjoint(claims: Claims) {
    && (forall c :: c in claims ==> ObligationIds(claims[c]) !! claims.Keys)
    && (forall c, d :: c in claims && d in claims && c != d ==> ObligationIds(claims[c]) !! ObligationIds(claims[d]))
  }

  /** The claim a dependency reference stands for. */
  function Resolve(claims: Claims, ref: string): Option<string>
    requires OwnersDisjoint(claims)
  {
    if ref in claims then Some(ref)
    else if exists c :: c in claims && ref in ObligationIds(claims[c]) then
      var c :| c in claims && ref in ObligationIds(claims[c]);
      Some(c)
    else None
  }

  predicate DistinctObligations(claim: Claim) {
    forall i, j :: 0 <= i < j < |claim.obligations| ==> claim.obligations[i].id != claim.obligations[j].id
  }

  /** `canonical_dependency_shape` does not raise. */
  predicate ShapeOk(claims: Claims, id: string) {
    && OwnersDisjoint(claims)
    && id in claims && NonBlank(id)
    && (forall d :: d in claims[id].dependencies ==> d in claims && d != "")
    && DistinctObligations(claims[id])
    && "" !in ObligationIds(claims[id])
    && forall d :: d in References(claims[id]) ==>
         d != "" && Resolve(claims, d).Some? && Resolve(claims, d).value != ""
  }

  /** The other claims `id` depends on, directly or through an obligation. */
  function ResolvedSet(claims: Claims, id: string): (r: set<string>)
    requires ShapeOk(claims, id)
    ensures r <= claims.Keys - {id}
  {
    Elements(claims[id].dependencies)
    + (set d | d in References(claims[id]) :: Resolve(claims, d).value)
    - {id}
  }

  /** `resolved_dependency_claim_ids`: `None` when it raises. */
  function ResolvedDependencies(claims: Claims, id: string): Option<seq<string>> {
    if ShapeOk(claims, id) then Some(SortSet(ResolvedSet(claims, id))) else None
  }

  /** The resolved claim relation. */
  function Edges(claims: Claims): (g: Graph)
    ensures g.Keys == claims.Keys && Closed(g)
  {
    map id | id in claims :: if ShapeOk(claims, id) then ResolvedSet(claims, id) else {}
  }

  // ---------- validity ----------

  predicate ObligationOk(claims: Claims, o: Obligation) {
    && NonBlank(o.id) && NonBlank(o.statement) && Distinct(o.dependencies)
    && forall d :: d in o.dependencies ==> d in claims || exists c :: c in claims && d in ObligationIds(claims[c])
  }

  predicate ClaimOk(domain: Domain, claims: Claims, id: string)
    requires id in claims
  {
    var claim := claims[id];
    && claim.status in Statuses(domain)
    && (forall d :: d in claim.dependencies ==> d in claims)
    && (claim.parent.Some? ==> claim.parent.value != id && claim.parent.value in claims)
    && (forall o :: o in claim.obligations ==> ObligationOk(claims, o))
    && ShapeOk(claims, id)
  }

  /** Everything `validate` checks before its cycle search. */
  predicate WellFormed(domain: Domain, claims: Claims) {
    && OwnersDisjoint(claims)
    && (forall c :: c in claims ==> DistinctObligations(claims[c]))
    && (forall c :: c in claims ==> ClaimOk(domain, claims, c))
  }

  ghost predicate ValidGraph(domain: Domain, claims: Claims) {
    WellFormed(domain, claims) && !Cyclic(Edges(claims))
  }

  predicate Trusted(t: Trust) {
    t in {CANONICAL_TRUSTED, AUDITED_NIGHTLY, FORMALLY_VERIFIED}
  }

  /** Python's `sorted(set(a + b))` on lists of strings. */
  function Merged(a: seq<string>, b: seq<string>): seq<string> {
    SortSet(Elements(a) + Elements(b))
  }

  // ---------- what dependencies are made of ----------

  /** The claims depend on each other in the same way. */
  predicate SameStructure(a: Claims, b: Claims) {
    && a.Keys == b.Keys
    && forall c :: c in a ==>
         && a[c].dependencies == b[c].dependencies
         && |a[c].obligations| == |b[c].obligations|
         && forall i :: 0 <= i < |a[c].obligations| ==>
              && a[c].obligations[i].id == b[c].obligations[i].id
              && a[c].obligations[i].dependencies == b[c].obligations[i].dependencies
  }

  lemma SameObligationIds(a: Claims, b: Claims, c: string)
    requires SameStructure(a, b) && c in a
    ensures ObligationIds(a[c]) == ObligationIds(b[c])
    ensures DistinctObligations(a[c]) <==> DistinctObligations(b[c])
  {
    forall id ensures id in ObligationIds(a[c]) <==> id in ObligationIds(b[c]) {
      if id in ObligationIds(a[c]) {
        var i :| 0 <= i < |a[c].obligations| && a[c].obligations[i].id == id;
        assert b[c].obligations[i].id == id;
      }
      if id in ObligationIds(b[c]) {
        var i :| 0 <= i < |b[c].obligations| && b[c].obligations[i].id == id;
        assert a[c].obligations[i].id == id;
      }
    }
  }

  lemma SameOwners(a: Claims, b: Claims)
    requires SameStructure(a, b)
    ensures OwnersDisjoint(a) <==> OwnersDisjoint(b)
    ensures forall c :: c in a ==> ObligationIds(a[c]) == ObligationIds(b[c])
  {
    forall c | c in a ensures ObligationIds(a[c]) == ObligationIds(b[c]) {
      SameObligationIds(a, b, c);
    }
  }

  lemma SameResolve(a: Claims, b: Claims, ref: string)
    requires SameStructure(a, b) && OwnersDisjoint(a) && OwnersDisjoint(b)
    ensures Resolve(a, ref) == Resolve(b, ref)
  {
    SameOwners(a, b);
    if ref !in a && Resolve(a, ref).Some? {
      var c := Resolve(a, ref).value;
      assert c in b && ref in ObligationIds(b[c]);
    }
    if ref !in a && Resolve(b, ref).Some? {
      var c := Resolve(b, ref).value;
      assert c in a && ref in ObligationIds(a[c]);
    }
  }

  lemma ShapeCarries(a: Claims, b: Claims, id: string)
    requires SameStructure(a, b) && ShapeOk(a, id)
    ensures ShapeOk(b, id) && ResolvedSet(b, id) == ResolvedSet(a, id)
  {
    SameOwners(a, b);
    SameObligationIds(a, b, id);
    SameReferences(a, b, id);
    forall d ensures Resolve(a, d) == Resolve(b, d) {
      SameResolve(a, b, d);
    }
  }

  lemma SameReferences(a: Claims, b: Claims, id: string)
    requires id in a && id in b && |a[id].obligations| == |b[id].obligations|
    requires forall i :: 0 <= i < |a[id].obligations| ==> a[id].obligations[i].dependencies == b[id].obligations[i].dependencies
    ensures References(a[id]) == References(b[id])
  {
    var os, os' := a[id].obligations, b[id].obligations;
    forall o, d | o in os && d in o.dependencies ensures exists o' :: o' in os' && d in o'.dependencies {
      var i :| 0 <= i < |os| && os[i] == o;
      assert os'[i] in os';
    }
    forall o, d | o in os' && d in o.dependencies ensures exists o' :: o' in os && d in o'.dependencies {
      var i :| 0 <= i < |os'| && os'[i] == o;
      assert os[i] in os;
    }
  }

  lemma SameEdges(a: Claims, b: Claims)
    requires SameStructure(a, b)
    ensures Edges(a) == Edges(b)
    ensures forall c :: c in a ==> (ShapeOk(a, c) <==> ShapeOk(b, c))
  {
    forall c | c in a ensures ShapeOk(a, c) <==> ShapeOk(b, c) {
      if ShapeOk(a, c) { ShapeCarries(a, b, c); }
      if ShapeOk(b, c) { ShapeCarries(b, a, c); }
    }
    forall c | c in a ensures Edges(a)[c] == Edges(b)[c] {
      if ShapeOk(a, c) { ShapeCarries(a, b, c); }
    }
  }
}
