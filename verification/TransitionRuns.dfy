/** What every run of commits, recoveries and crashes keeps. */
module TransitionRuns {
  import opened Prelude
  import opened TransitionModel
  import opened TransitionRecords

  /** The initial files, the files only the store writes, and the trusted-state file of every commit. */
  datatype World = World(files: map<Uri, Content>, managed: set<Uri>, trusted: Uri)

  function PreparedOf(ledger: seq<Record>): (ps: seq<Record>)
    ensures forall r :: r in ps ==> r.Prepared?
  {
    if ledger == [] then [] else
      var r := ledger[|ledger| - 1];
      var earlier := PreparedOf(ledger[..|ledger| - 1]);
      if r.Prepared? then earlier + [r] else earlier
  }

  predicate Pending(ledger: seq<Record>) {
    ledger != [] && ledger[|ledger| - 1].Prepared?
  }

  function Pairs(ps: seq<Record>): seq<Record> {
    if ps == [] then [] else
      var r := ps[|ps| - 1];
      Pairs(ps[..|ps| - 1]) + [r, Committed(r.id, true, r.authorization)]
  }

  /** PREPARED/COMMITTED pairs and at most one trailing PREPARED. */
  predicate WellPaired(ledger: seq<Record>) {
    var ps := PreparedOf(ledger);
    if Pending(ledger) then
      ledger == Pairs(ps[..|ps| - 1]) + ps[|ps| - 1..]
    else ledger == Pairs(ps)
  }

  /** The files a transaction leaves. */
  function AfterFiles(targets: seq<Target>): map<Uri, Content> {
    map uri | uri in Paths(targets) :: Lookup(targets, uri).after.content
  }

  /** The initial files overwritten by each transaction in turn. */
  function Final(files: map<Uri, Content>, ps: seq<Record>): map<Uri, Content>
    requires forall r :: r in ps ==> r.Prepared?
  {
    if ps == [] then files else Final(files, ps[..|ps| - 1]) + AfterFiles(ps[|ps| - 1].targets)
  }

  predicate AgreeAt(uri: Uri, a: map<Uri, Content>, b: map<Uri, Content>) {
    (uri in a <==> uri in b) && (uri in a ==> a[uri] == b[uri])
  }

  /** Transaction `k` touches managed files only, has its snapshots, and found the files the earlier ones left. */
  ghost predicate Continues(w: World, bundles: Bundles, ps: seq<Record>, k: nat)
    requires k < |ps| && forall r :: r in ps ==> r.Prepared?
  {
    var r := ps[k];
    && SnapshotsValid(bundles, r.id, r.targets)
    && Paths(r.targets) <= w.managed
    && w.trusted in Paths(r.targets) && CarriesId(bundles, r.id, Lookup(r.targets, w.trusted))
    && (forall t :: t in r.targets ==> t.before == Sha256(Read(Final(w.files, ps[..k]), t.path)))
  }

  /** Transaction `k` is acceptable and continues the earlier ones. */
  ghost predicate Chained(w: World, bundles: Bundles, ps: seq<Record>, k: nat)
    requires k < |ps| && forall r :: r in ps ==> r.Prepared?
  {
    PreparedAccepted(bundles, ps[k]) && Continues(w, bundles, ps, k)
  }

  /** Every managed file is as the finished transactions left it, except that the pending one may have replaced some. */
  ghost predicate LiveMatches(w: World, live: map<Uri, Content>, ps: seq<Record>, pending: bool)
    requires forall r :: r in ps ==> r.Prepared?
    requires pending ==> ps != []
  {
    forall uri :: uri in w.managed ==>
      || AgreeAt(uri, live, Final(w.files, ps))
      || (pending && AgreeAt(uri, live, Final(w.files, ps[..|ps| - 1])))
  }

  ghost predicate Invariant(w: World, d: Disk) {
    var ps := PreparedOf(d.ledger);
    && WellPaired(d.ledger)
    && AllChained(w, d.bundles, ps)
    && LiveMatches(w, d.live, ps, Pending(d.ledger))
  }

  ghost predicate AllChained(w: World, bundles: Bundles, ps: seq<Record>)
    requires forall r :: r in ps ==> r.Prepared?
  {
    forall k :: 0 <= k < |ps| ==> Chained(w, bundles, ps, k)
  }

  // ---------- one storage operation ----------

  /** The storage operations the store performs in a state satisfying the invariant. */
  ghost predicate Legal(w: World, d: Disk, write: Write) {
    var ps := PreparedOf(d.ledger);
    match write
    case WriteSnapshot(id, _, _) => forall r :: r in ps ==> r.id != id
    case ReplaceLive(uri, content) =>
      Pending(d.ledger) && uri in w.managed && uri in Final(w.files, ps) && content == Final(w.files, ps)[uri]
    case AppendRecord(r) =>
      if r.Prepared? then
        && !Pending(d.ledger)
        && Chained(w, d.bundles, ps + [r], |ps|)
      else
        && Pending(d.ledger)
        && r == Committed(ps[|ps| - 1].id, true, ps[|ps| - 1].authorization)
        && LiveMatches(w, d.live, ps, false)
  }

  lemma ChainedGrows(w: World, bundles: Bundles, bundles': Bundles, ps: seq<Record>, ps': seq<Record>, k: nat)
    requires k < |ps| && ps <= ps' && (forall r :: r in ps' ==> r.Prepared?)
    requires Chained(w, bundles, ps, k)
    requires forall name :: (ps[k].id, name) in bundles ==>
               (ps[k].id, name) in bundles' && bundles'[(ps[k].id, name)] == bundles[(ps[k].id, name)]
    requires forall name :: (ps[k].id, name) in bundles' ==> (ps[k].id, name) in bundles
    ensures Chained(w, bundles', ps', k)
  {
    assert ps[..k] == ps'[..k] && ps[k] == ps'[k];
    TrustedTargetsSame(bundles, bundles', ps[k].id, ps[k].targets);
  }

  lemma {:induction false} TrustedTargetsSame(bundles: Bundles, bundles': Bundles, id: Id, targets: seq<Target>)
    requires forall name :: (id, name) in bundles <==> (id, name) in bundles'
    requires forall name :: (id, name) in bundles ==> bundles'[(id, name)] == bundles[(id, name)]
    ensures TrustedTargets(bundles, id, targets) == TrustedTargets(bundles', id, targets)
  {
    if targets != [] {
      TrustedTargetsSame(bundles, bundles', id, targets[..|targets| - 1]);
    }
  }

  lemma SnapshotKeeps(w: World, d: Disk, id: Id, name: SnapshotName, content: Content)
    requires AllChained(w, d.bundles, PreparedOf(d.ledger))
    requires forall r :: r in PreparedOf(d.ledger) ==> r.id != id
    ensures AllChained(w, d.bundles[(id, name) := content], PreparedOf(d.ledger))
  {
    var ps, bundles' := PreparedOf(d.ledger), d.bundles[(id, name) := content];
    forall k | 0 <= k < |ps| ensures Chained(w, bundles', ps, k) {
      assert ps[k] in ps;
      ChainedGrows(w, d.bundles, bundles', ps, ps, k);
    }
  }

  lemma AllChainedGrows(w: World, bundles: Bundles, ps: seq<Record>, r: Record)
    requires r.Prepared? && forall x :: x in ps ==> x.Prepared?
    requires AllChained(w, bundles, ps) && Chained(w, bundles, ps + [r], |ps|)
    ensures AllChained(w, bundles, ps + [r])
  {
    forall k | 0 <= k < |ps| ensures Chained(w, bundles, ps + [r], k) {
      ChainedGrows(w, bundles, bundles, ps, ps + [r], k);
    }
  }

  lemma PrepareKeeps(w: World, d: Disk, r: Record)
    requires Invariant(w, d) && r.Prepared? && Legal(w, d, AppendRecord(r))
    ensures Invariant(w, Apply(d, AppendRecord(r)))
  {
    var ps, ledger' := PreparedOf(d.ledger), d.ledger + [r];
    assert ledger'[..|d.ledger|] == d.ledger;
    assert PreparedOf(ledger') == ps + [r];
    AllChainedGrows(w, d.bundles, ps, r);
    assert (ps + [r])[..|ps|] == ps && (ps + [r])[|ps|..] == [r];
  }

  lemma CommitKeeps(w: World, d: Disk, r: Record)
    requires Invariant(w, d) && r.Committed? && Legal(w, d, AppendRecord(r))
    ensures Invariant(w, Apply(d, AppendRecord(r)))
  {
    var ps, ledger' := PreparedOf(d.ledger), d.ledger + [r];
    assert ledger'[..|d.ledger|] == d.ledger;
    assert PreparedOf(ledger') == ps;
    var n := |ps| - 1;
    assert ps[n..] == [ps[n]];
    assert Pairs(ps[..n]) + [ps[n]] + [r] == Pairs(ps[..n]) + [ps[n], r];
  }

  lemma LegalKeepsInvariant(w: World, d: Disk, write: Write)
    requires Invariant(w, d) && Legal(w, d, write)
    ensures Invariant(w, Apply(d, write))
  {
    match write
    case WriteSnapshot(id, name, content) => SnapshotKeeps(w, d, id, name, content);
    case ReplaceLive(uri, content) =>
    case AppendRecord(r) =>
      if r.Prepared? { PrepareKeeps(w, d, r); } else { CommitKeeps(w, d, r); }
  }

  // ---------- ids ----------

  lemma SnapshotDetermines(bundles: Bundles, id: Id, name: SnapshotName, sha256: Digest)
    requires SnapshotMatches(bundles, id, name, sha256)
    ensures bundles[(id, name)] == sha256.content
  {
  }

  /** After transaction `k` the trusted state carries its id. */
  lemma TrustedCarriesLastId(w: World, bundles: Bundles, ps: seq<Record>, k: nat)
    requires k < |ps| && (forall r :: r in ps ==> r.Prepared?) && Continues(w, bundles, ps, k)
    ensures var files := Final(w.files, ps[..k + 1]);
            w.trusted in files && files[w.trusted].Document? && files[w.trusted].doc.lastTransitionId == Some(ps[k].id)
  {
    assert ps[..k + 1][..k] == ps[..k];
    var t := Lookup(ps[k].targets, w.trusted);
    SnapshotDetermines(bundles, ps[k].id, t.afterSnapshot, t.after);
  }

  lemma HashedIntoIsEarlier(a: Id, b: Id, uri: Uri, doc: Doc)
    requires uri in b.seed.before && b.seed.before[uri] == Sha256(Document(doc)) && doc.lastTransitionId == Some(a)
    ensures a < b
  {
  }

  lemma NextIdIsLater(w: World, bundles: Bundles, ps: seq<Record>, k: nat)
    requires k + 1 < |ps| && (forall r :: r in ps ==> r.Prepared?)
    requires Chained(w, bundles, ps, k) && Chained(w, bundles, ps, k + 1)
    ensures ps[k].id < ps[k + 1].id
  {
    TrustedCarriesLastId(w, bundles, ps, k);
    var r := ps[k + 1];
    var t := Lookup(r.targets, w.trusted);
    var files := Final(w.files, ps[..k + 1]);
    HashedIntoIsEarlier(ps[k].id, r.id, w.trusted, files[w.trusted].doc);
  }

  /** Ids grow strictly along the ledger, so they never repeat. */
  lemma {:induction false} IdsIncrease(w: World, bundles: Bundles, ps: seq<Record>, i: nat, j: nat)
    requires i < j < |ps| && (forall r :: r in ps ==> r.Prepared?) && AllChained(w, bundles, ps)
    ensures ps[i].id < ps[j].id
  {
    NextIdIsLater(w, bundles, ps, j - 1);
    if i < j - 1 {
      IdsIncrease(w, bundles, ps, i, j - 1);
    }
  }

  ghost predicate DistinctIds(ps: seq<Record>) {
    forall i, j :: 0 <= i < j < |ps| ==> ps[i].id != ps[j].id
  }

  lemma IdsDistinct(w: World, bundles: Bundles, ps: seq<Record>)
    requires (forall r :: r in ps ==> r.Prepared?) && AllChained(w, bundles, ps)
    ensures DistinctIds(ps)
  {
    forall i, j | 0 <= i < j < |ps| ensures ps[i].id != ps[j].id {
      IdsIncrease(w, bundles, ps, i, j);
    }
  }

  // ---------- validation accepts every reachable ledger ----------

  /** What validation returns for complete pairs. */
  function LedgerOf(ps: seq<Record>): (l: Ledger)
    requires forall r :: r in ps ==> r.Prepared?
    ensures forall id :: id in l.ordered ==> id in l.prepared && l.prepared[id].Prepared?
  {
    if ps == [] then Ledger([], map[], []) else
      var l, r := LedgerOf(ps[..|ps| - 1]), ps[|ps| - 1];
      Ledger(l.ordered + [r.id], l.prepared[r.id := r],
             l.committed + [Committed(r.id, true, r.authorization)])
  }

  lemma {:induction false} LedgerOfFacts(ps: seq<Record>)
    requires forall r :: r in ps ==> r.Prepared?
    ensures var l := LedgerOf(ps);
            && (forall id :: id in l.prepared <==> id in Ids(ps))
            && Ids(l.committed) == Ids(ps) == Elements(l.ordered)
            && |l.committed| == |ps|
  {
    if ps != [] {
      var n := |ps| - 1;
      LedgerOfFacts(ps[..n]);
      assert ps == ps[..n] + [ps[n]];
      assert Ids(ps) == Ids(ps[..n]) + {ps[n].id};
      var l := LedgerOf(ps[..n]);
      var c := Committed(ps[n].id, true, ps[n].authorization);
      assert Ids(l.committed + [c]) == Ids(l.committed) + {c.id};
      assert Elements(l.ordered + [ps[n].id]) == Elements(l.ordered) + {ps[n].id};
    }
  }

  lemma LastIdIsNew(ps: seq<Record>)
    requires ps != [] && DistinctIds(ps)
    ensures ps[|ps| - 1].id !in Ids(ps[..|ps| - 1]) && DistinctIds(ps[..|ps| - 1])
  {
  }

  lemma ValidateNext(bundles: Bundles, records: seq<Record>, r: Record, l: Ledger)
    requires ValidateLedger(bundles, records) == Some(l)
    ensures ValidateLedger(bundles, records + [r]) == ValidateRecord(bundles, l, r)
  {
    assert (records + [r])[..|records|] == records;
  }

  /** The ledger's dictionaries once `r` is prepared after the pairs of `ps`. */
  function LedgerWith(ps: seq<Record>, r: Record): Ledger
    requires r.Prepared? && forall x :: x in ps ==> x.Prepared?
  {
    var l := LedgerOf(ps);
    Ledger(l.ordered + [r.id], l.prepared[r.id := r], l.committed)
  }

  lemma PreparedValidates(bundles: Bundles, ps: seq<Record>, r: Record)
    requires r.Prepared? && PreparedAccepted(bundles, r) && r.id !in Ids(ps)
    requires forall x :: x in ps ==> x.Prepared?
    requires ValidateLedger(bundles, Pairs(ps)) == Some(LedgerOf(ps))
    ensures ValidateLedger(bundles, Pairs(ps) + [r]) == Some(LedgerWith(ps, r))
  {
    LedgerOfFacts(ps);
    ValidateNext(bundles, Pairs(ps), r, LedgerOf(ps));
  }

  lemma {:induction false} PairsValidate(bundles: Bundles, ps: seq<Record>)
    requires forall r :: r in ps ==> r.Prepared? && PreparedAccepted(bundles, r)
    requires DistinctIds(ps)
    ensures ValidateLedger(bundles, Pairs(ps)) == Some(LedgerOf(ps))
  {
    if ps != [] {
      var n := |ps| - 1;
      var r := ps[n];
      LastIdIsNew(ps);
      PairsValidate(bundles, ps[..n]);
      PreparedValidates(bundles, ps[..n], r);
      LedgerOfFacts(ps[..n]);
      var c := Committed(r.id, true, r.authorization);
      ValidateNext(bundles, Pairs(ps[..n]) + [r], c, LedgerWith(ps[..n], r));
      assert Pairs(ps) == Pairs(ps[..n]) + [r] + [c];
    }
  }

  lemma {:induction false} UncommittedNone(l: Ledger, ordered: seq<Id>)
    requires forall id :: id in ordered ==> id in l.prepared && l.prepared[id].Prepared?
    requires Elements(ordered) <= Ids(l.committed)
    ensures Uncommitted(l, ordered) == []
  {
    if ordered != [] {
      assert ordered[0] in Elements(ordered);
      UncommittedNone(l, ordered[1..]);
    }
  }

  lemma {:induction false} UncommittedLast(l: Ledger, ordered: seq<Id>, id: Id)
    requires forall x :: x in ordered + [id] ==> x in l.prepared && l.prepared[x].Prepared?
    requires Elements(ordered) <= Ids(l.committed) && id !in Ids(l.committed)
    ensures Uncommitted(l, ordered + [id]) == [l.prepared[id]]
  {
    if ordered == [] {
      assert ([id])[1..] == [];
    } else {
      assert (ordered + [id])[0] in Elements(ordered);
      assert (ordered + [id])[1..] == ordered[1..] + [id];
      UncommittedLast(l, ordered[1..], id);
    }
  }
}
