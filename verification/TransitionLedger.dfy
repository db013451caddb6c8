/** Which ledgers are valid, what their ids stand for, what recovery does with any number of pending transactions, and
    which outside edits it notices. */
module TransitionLedger {
  import opened Prelude
  import opened TransitionModel
  import opened TransitionRecords
  import opened TransitionRuns
  import opened TransitionCrash
  import opened TransitionTheorems
  import opened TransitionPromises

  // ---------- valid ledgers ----------

  predicate PreparedBefore(records: seq<Record>, i: nat, id: Id)
    requires i <= |records|
  {
    exists j :: 0 <= j < i && records[j].Prepared? && records[j].id == id
  }

  predicate CommittedBefore(records: seq<Record>, i: nat, id: Id)
    requires i <= |records|
  {
    exists j :: 0 <= j < i && records[j].Committed? && records[j].id == id
  }

  /** A PREPARED is acceptable and the first under its id; a COMMITTED follows a PREPARED of its id and authorization and
      is the first of its id. */
  predicate Fits(bundles: Bundles, records: seq<Record>, i: nat)
    requires i < |records|
  {
    match records[i]
    case Prepared(id, _, _, _) => PreparedAccepted(bundles, records[i]) && !PreparedBefore(records, i, id)
    case Committed(id, _, authorization) =>
      && !CommittedBefore(records, i, id)
      && exists j :: 0 <= j < i && records[j].Prepared? && records[j].id == id
                     && records[j].authorization == authorization
  }

  /** What validation knows of the records it has read. */
  ghost predicate Indexes(l: Ledger, records: seq<Record>) {
    && (forall id :: id in l.prepared <==> PreparedBefore(records, |records|, id))
    && (forall j :: 0 <= j < |records| && records[j].Prepared? ==>
          records[j].id in l.prepared && l.prepared[records[j].id] == records[j])
    && (forall id :: id in Ids(l.committed) <==> CommittedBefore(records, |records|, id))
  }

  lemma BeforeNext(records: seq<Record>, r: Record, id: Id)
    ensures PreparedBefore(records + [r], |records| + 1, id) <==>
              PreparedBefore(records, |records|, id) || (r.Prepared? && r.id == id)
    ensures CommittedBefore(records + [r], |records| + 1, id) <==>
              CommittedBefore(records, |records|, id) || (r.Committed? && r.id == id)
  {
    var longer := records + [r];
    assert longer[|records|] == r && forall j :: 0 <= j < |records| ==> longer[j] == records[j];
  }

  lemma FitsLonger(bundles: Bundles, records: seq<Record>, r: Record, i: nat)
    requires i < |records|
    ensures Fits(bundles, records + [r], i) <==> Fits(bundles, records, i)
  {
    var longer := records + [r];
    assert forall j :: 0 <= j < |records| ==> longer[j] == records[j];
    assert PreparedBefore(longer, i, records[i].id) <==> PreparedBefore(records, i, records[i].id);
    assert CommittedBefore(longer, i, records[i].id) <==> CommittedBefore(records, i, records[i].id);
  }

  /** The next record fits exactly when the validation loop takes it. */
  lemma NextFits(bundles: Bundles, records: seq<Record>, r: Record, l: Ledger)
    requires Indexes(l, records)
    ensures Fits(bundles, records + [r], |records|) <==> ValidateRecord(bundles, l, r).Some?
  {
    var longer := records + [r];
    assert longer[|records|] == r && forall j :: 0 <= j < |records| ==> longer[j] == records[j];
    assert PreparedBefore(longer, |records|, r.id) <==> PreparedBefore(records, |records|, r.id);
    assert CommittedBefore(longer, |records|, r.id) <==> CommittedBefore(records, |records|, r.id);
    if r.Committed? && r.id in l.prepared {
      var j :| 0 <= j < |records| && records[j].Prepared? && records[j].id == r.id;
      assert longer[j] == records[j];
    }
  }

  lemma NextIndexes(bundles: Bundles, records: seq<Record>, r: Record, l: Ledger)
    requires Indexes(l, records) && ValidateRecord(bundles, l, r).Some?
    ensures Indexes(ValidateRecord(bundles, l, r).value, records + [r])
  {
    if r.Prepared? {
      PreparedIndexed(records, r, l, l.(ordered := l.ordered + [r.id], prepared := l.prepared[r.id := r]));
    } else {
      CommittedIndexed(records, r, l, l.(committed := l.committed + [r]));
    }
  }

  lemma PreparedIndexed(records: seq<Record>, r: Record, l: Ledger, next: Ledger)
    requires Indexes(l, records) && r.Prepared? && r.id !in l.prepared
    requires next.prepared == l.prepared[r.id := r] && next.committed == l.committed
    ensures Indexes(next, records + [r])
  {
    forall id
      ensures id in next.prepared <==> PreparedBefore(records + [r], |records| + 1, id)
      ensures id in Ids(next.committed) <==> CommittedBefore(records + [r], |records| + 1, id)
    {
      BeforeNext(records, r, id);
    }
    var longer := records + [r];
    forall j | 0 <= j < |longer| && longer[j].Prepared?
      ensures longer[j].id in next.prepared && next.prepared[longer[j].id] == longer[j]
    {
      if j < |records| {
        assert longer[j] == records[j];
      }
    }
  }

  lemma CommittedIndexed(records: seq<Record>, r: Record, l: Ledger, next: Ledger)
    requires Indexes(l, records) && r.Committed?
    requires next.prepared == l.prepared && next.committed == l.committed + [r]
    ensures Indexes(next, records + [r])
  {
    assert Ids(next.committed) == Ids(l.committed) + {r.id};
    forall id
      ensures id in next.prepared <==> PreparedBefore(records + [r], |records| + 1, id)
      ensures id in Ids(next.committed) <==> CommittedBefore(records + [r], |records| + 1, id)
    {
      BeforeNext(records, r, id);
    }
    var longer := records + [r];
    assert forall j :: 0 <= j < |longer| && longer[j].Prepared? ==> j < |records| && longer[j] == records[j];
  }

  lemma {:induction false} ValidationReads(bundles: Bundles, records: seq<Record>)
    ensures var l := ValidateLedger(bundles, records);
            && (l.Some? ==> Indexes(l.value, records))
            && (l.Some? <==> forall i :: 0 <= i < |records| ==> Fits(bundles, records, i))
  {
    if records != [] {
      var front, last := records[..|records| - 1], records[|records| - 1];
      assert records == front + [last];
      ValidationReads(bundles, front);
      forall i | 0 <= i < |front| ensures Fits(bundles, records, i) <==> Fits(bundles, front, i) {
        FitsLonger(bundles, front, last, i);
      }
      var l := ValidateLedger(bundles, front);
      if l.Some? {
        NextFits(bundles, front, last, l.value);
        if ValidateRecord(bundles, l.value, last).Some? {
          NextIndexes(bundles, front, last, l.value);
        }
      }
    }
  }

  /** A ledger is valid exactly when every record fits where it stands. */
  lemma ValidLedgerIff(bundles: Bundles, records: seq<Record>)
    ensures ValidateLedger(bundles, records).Some? <==> forall i :: 0 <= i < |records| ==> Fits(bundles, records, i)
  {
    ValidationReads(bundles, records);
  }

  // ---------- snapshots ----------

  /** Both snapshots of every target are there as they were. */
  predicate Untouched(here: Bundles, there: Bundles, r: Record)
    requires r.Prepared?
  {
    forall t :: t in r.targets ==>
      SameSnapshot(here, there, r.id, t.beforeSnapshot) && SameSnapshot(here, there, r.id, t.afterSnapshot)
  }

  predicate SameSnapshot(here: Bundles, there: Bundles, id: Id, name: SnapshotName) {
    (id, name) in here && (id, name) in there && there[(id, name)] == here[(id, name)]
  }

  lemma MatchesIff(here: Bundles, there: Bundles, id: Id, name: SnapshotName, sha256: Digest)
    requires SnapshotMatches(here, id, name, sha256)
    ensures SnapshotMatches(there, id, name, sha256) <==> SameSnapshot(here, there, id, name)
  {
  }

  lemma {:induction false} SameTrustedTargets(here: Bundles, there: Bundles, id: Id, targets: seq<Target>)
    requires forall t :: t in targets ==> SameSnapshot(here, there, id, t.afterSnapshot)
    ensures TrustedTargets(there, id, targets) == TrustedTargets(here, id, targets)
  {
    if targets != [] {
      SameTrustedTargets(here, there, id, targets[..|targets| - 1]);
    }
  }

  lemma SnapshotsValidIff(here: Bundles, there: Bundles, r: Record)
    requires r.Prepared? && SnapshotsValid(here, r.id, r.targets)
    ensures SnapshotsValid(there, r.id, r.targets) <==> Untouched(here, there, r)
  {
    forall t | t in r.targets
      ensures SnapshotMatches(there, r.id, t.beforeSnapshot, t.before) <==> SameSnapshot(here, there, r.id, t.beforeSnapshot)
      ensures SnapshotMatches(there, r.id, t.afterSnapshot, t.after) <==> SameSnapshot(here, there, r.id, t.afterSnapshot)
    {
      MatchesIff(here, there, r.id, t.beforeSnapshot, t.before);
      MatchesIff(here, there, r.id, t.afterSnapshot, t.after);
    }
  }

  lemma AcceptedThereIff(here: Bundles, there: Bundles, r: Record)
    requires r.Prepared? && PreparedAccepted(here, r)
    ensures PreparedAccepted(there, r) <==> Untouched(here, there, r)
  {
    SnapshotsValidIff(here, there, r);
    if Untouched(here, there, r) {
      SameTrustedTargets(here, there, r.id, r.targets);
      var t := TrustedTargets(here, r.id, r.targets)[0];
      assert t in TrustedTargets(here, r.id, r.targets);
      assert SameSnapshot(here, there, r.id, t.afterSnapshot);
    }
  }

  /** A valid ledger stays valid over other bundles exactly when these still hold, unchanged, both snapshots of every
      file of every transaction. */
  lemma SnapshotTamperIff(here: Bundles, there: Bundles, records: seq<Record>)
    requires ValidateLedger(here, records).Some?
    ensures ValidateLedger(there, records).Some? <==>
              forall i :: 0 <= i < |records| && records[i].Prepared? ==> Untouched(here, there, records[i])
  {
    ValidLedgerIff(here, records);
    ValidLedgerIff(there, records);
    forall i | 0 <= i < |records|
      ensures Fits(there, records, i) <==> (records[i].Prepared? ==> Untouched(here, there, records[i]))
    {
      assert Fits(here, records, i);
      if records[i].Prepared? {
        AcceptedThereIff(here, there, records[i]);
      }
    }
  }

  // ---------- an id stands for its transaction ----------

  /** Two records list the same files, found in the same state, and leave all but the trusted one in the same state. */
  predicate SameTransaction(a: Record, b: Record, trusted: Uri)
    requires a.Prepared? && b.Prepared?
  {
    && a.authorization == b.authorization && PreconditionMap(a.preconditions) == PreconditionMap(b.preconditions)
    && Paths(a.targets) == Paths(b.targets)
    && forall uri :: uri in Paths(a.targets) ==>
         && Lookup(a.targets, uri).before == Lookup(b.targets, uri).before
         && (uri != trusted ==> Lookup(a.targets, uri).after == Lookup(b.targets, uri).after)
  }

  /** The trusted target of an acceptable record and the graph digest in its snapshot. */
  lemma AcceptedSeed(bundles: Bundles, r: Record) returns (trusted: Uri, sha256: Digest)
    requires r.Prepared? && PreparedAccepted(bundles, r)
    ensures trusted in Paths(r.targets)
    ensures r.id == TransitionId(RecordSeed(r.authorization, r.preconditions, r.targets, trusted, sha256))
  {
    var t := TrustedTargets(bundles, r.id, r.targets)[0];
    assert t in TrustedTargets(bundles, r.id, r.targets);
    trusted, sha256 := t.path, bundles[(r.id, t.afterSnapshot)].doc.claimGraphSha256.value;
  }

  lemma SeedsAgree(a: Record, b: Record, ta: Uri, tb: Uri, sa: Digest, sb: Digest)
    requires a.Prepared? && b.Prepared? && ta in Paths(a.targets) && tb in Paths(b.targets)
    requires RecordSeed(a.authorization, a.preconditions, a.targets, ta, sa)
          == RecordSeed(b.authorization, b.preconditions, b.targets, tb, sb)
    ensures ta == tb && sa == sb && SameTransaction(a, b, ta)
  {
    var x, y := RecordSeed(a.authorization, a.preconditions, a.targets, ta, sa),
                RecordSeed(b.authorization, b.preconditions, b.targets, tb, sb);
    assert x.before.Keys == Paths(a.targets) && y.before.Keys == Paths(b.targets);
    assert x.after.Keys == Paths(a.targets) - {ta} && y.after.Keys == Paths(b.targets) - {tb};
    forall uri | uri in Paths(a.targets)
      ensures Lookup(a.targets, uri).before == Lookup(b.targets, uri).before
      ensures uri != ta ==> Lookup(a.targets, uri).after == Lookup(b.targets, uri).after
    {
      assert x.before[uri] == y.before[uri];
      if uri != ta {
        assert x.after[uri] == y.after[uri];
      }
    }
  }

  /** Whatever the bundles, two acceptable records under one id are of the same transaction: an id cannot be kept while
      its authorization, preconditions or files are changed. */
  lemma AcceptedIdBinds(here: Bundles, there: Bundles, a: Record, b: Record)
    requires a.Prepared? && b.Prepared? && a.id == b.id
    requires PreparedAccepted(here, a) && PreparedAccepted(there, b)
    ensures exists trusted :: trusted in Paths(a.targets) && SameTransaction(a, b, trusted)
  {
    var ta, sa := AcceptedSeed(here, a);
    var tb, sb := AcceptedSeed(there, b);
    SeedsAgree(a, b, ta, tb, sa, sb);
  }

  // ---------- recovery of any number of pending transactions ----------

  /** The PREPARED records among the first `n` that no COMMITTED record of the ledger names. */
  function Unfinished(records: seq<Record>, n: nat): (ps: seq<Record>)
    requires n <= |records|
    ensures forall r :: r in ps ==> r.Prepared?
  {
    if n == 0 then [] else
      var r := records[n - 1];
      Unfinished(records, n - 1)
      + if r.Prepared? && !CommittedBefore(records, |records|, r.id) then [r] else []
  }

  lemma {:induction false} UncommittedNext(l: Ledger, ids: seq<Id>, id: Id)
    requires forall x :: x in ids ==> x in l.prepared && l.prepared[x].Prepared?
    requires id in l.prepared && l.prepared[id].Prepared?
    ensures forall x :: x in ids + [id] ==> x in l.prepared && l.prepared[x].Prepared?
    ensures Uncommitted(l, ids + [id])
            == Uncommitted(l, ids) + if id in Ids(l.committed) then [] else [l.prepared[id]]
  {
    if ids == [] {
      assert ids + [id] == [id] && [id][1..] == [];
    } else {
      assert (ids + [id])[0] == ids[0] && (ids + [id])[1..] == ids[1..] + [id];
      UncommittedNext(l, ids[1..], id);
    }
  }

  /** The ids of the PREPARED records. */
  function PreparedIds(records: seq<Record>, n: nat): seq<Id>
    requires n <= |records|
  {
    if n == 0 then [] else
      PreparedIds(records, n - 1) + if records[n - 1].Prepared? then [records[n - 1].id] else []
  }

  lemma {:induction false} PreparedIdsPrefix(records: seq<Record>, r: Record, n: nat)
    requires n <= |records|
    ensures PreparedIds(records + [r], n) == PreparedIds(records, n)
  {
    if n > 0 {
      PreparedIdsPrefix(records, r, n - 1);
    }
  }

  lemma {:induction false} OrderedIs(bundles: Bundles, records: seq<Record>)
    requires ValidateLedger(bundles, records).Some?
    ensures ValidateLedger(bundles, records).value.ordered == PreparedIds(records, |records|)
  {
    if records != [] {
      var front, last := records[..|records| - 1], records[|records| - 1];
      OrderedIs(bundles, front);
      assert records == front + [last];
      PreparedIdsPrefix(front, last, |front|);
    }
  }

  /** Validation filed every PREPARED record under its id. */
  predicate Filed(l: Ledger, records: seq<Record>) {
    forall j :: 0 <= j < |records| && records[j].Prepared? ==>
      records[j].id in l.prepared && l.prepared[records[j].id] == records[j]
  }

  lemma {:induction false} PreparedIdsFiled(l: Ledger, records: seq<Record>, n: nat)
    requires Filed(l, records) && n <= |records|
    ensures forall id :: id in PreparedIds(records, n) ==> id in l.prepared && l.prepared[id].Prepared?
  {
    if n > 0 {
      PreparedIdsFiled(l, records, n - 1);
    }
  }

  lemma {:induction false} UnfinishedAre(l: Ledger, records: seq<Record>, n: nat)
    requires Filed(l, records) && n <= |records|
    requires forall id :: id in PreparedIds(records, n) ==> id in l.prepared && l.prepared[id].Prepared?
    requires forall id :: id in Ids(l.committed) <==> CommittedBefore(records, |records|, id)
    ensures Uncommitted(l, PreparedIds(records, n)) == Unfinished(records, n)
  {
    if n > 0 {
      PreparedIdsFiled(l, records, n - 1);
      UnfinishedAre(l, records, n - 1);
      var r := records[n - 1];
      if r.Prepared? {
        assert PreparedIds(records, n) == PreparedIds(records, n - 1) + [r.id];
        UncommittedNext(l, PreparedIds(records, n - 1), r.id);
      } else {
        NothingNext(records, n);
      }
    }
  }

  lemma NothingNext(records: seq<Record>, n: nat)
    requires 0 < n <= |records| && !records[n - 1].Prepared?
    ensures PreparedIds(records, n) == PreparedIds(records, n - 1)
    ensures Unfinished(records, n) == Unfinished(records, n - 1)
  {
  }

  function CommitsOf(ps: seq<Record>): seq<Record>
    requires forall r :: r in ps ==> r.Prepared?
  {
    seq(|ps|, i requires 0 <= i < |ps| => Committed(ps[i].id, true, ps[i].authorization))
  }

  function IdsOf(ps: seq<Record>): seq<Id> {
    seq(|ps|, i requires 0 <= i < |ps| => ps[i].id)
  }

  lemma InEither(a: seq<Record>, b: seq<Record>)
    ensures forall r :: r in a + b <==> r in a || r in b
  {
  }

  lemma {:induction false} FinalConcat(files: map<Uri, Content>, a: seq<Record>, b: seq<Record>)
    requires (forall r :: r in a ==> r.Prepared?) && forall r :: r in b ==> r.Prepared?
    ensures forall r :: r in a + b ==> r.Prepared?
    ensures Final(files, a + b) == Final(Final(files, a), b)
  {
    InEither(a, b);
    if b == [] {
      assert a + b == a;
    } else {
      assert (a + b)[..|a + b| - 1] == a + b[..|b| - 1];
      FinalConcat(files, a, b[..|b| - 1]);
    }
  }

  /** One transaction rolled forward. */
  lemma TransactionFinishes(d: Disk, r: Record)
    requires r.Prepared? && SnapshotsValid(d.bundles, r.id, r.targets) && TransactionPlan(d, r).outcome.Returned?
    ensures var d' := ApplyAll(d, TransactionPlan(d, r).writes);
            && d'.live == d.live + AfterFiles(r.targets) && d'.bundles == d.bundles
            && d'.ledger == d.ledger + [Committed(r.id, true, r.authorization)]
  {
    var ws, commit := ReplaceWrites(d, r.id, r.targets), AppendRecord(Committed(r.id, true, r.authorization));
    ReplacedInPlace(d, r.id, r.targets);
    var here := ApplyAll(d, ws);
    InPlaceIs(d, here, r.targets);
    ApplyAllConcat(d, ws, [commit]);
    ApplyOne(here, commit);
  }

  lemma InPlaceIs(d: Disk, here: Disk, targets: seq<Target>)
    requires InPlace(d, here, targets)
    ensures here.live == d.live + AfterFiles(targets)
  {
    forall uri ensures AgreeAt(uri, here.live, d.live + AfterFiles(targets)) {
      if uri in Paths(targets) {
        var t := Lookup(targets, uri);
        assert Holds(here.live, uri, t.after);
      } else {
        assert AgreeAt(uri, here.live, d.live);
      }
    }
    SameFiles(here.live, d.live + AfterFiles(targets));
  }

  lemma {:induction false} RollsAll(d: Disk, ps: seq<Record>, done: seq<Id>)
    requires forall r :: r in ps ==> r.Prepared? && SnapshotsValid(d.bundles, r.id, r.targets)
    requires RollForward(d, ps, done).outcome.Returned?
    ensures Finishes(d, ps, done, RollForward(d, ps, done))
    decreases |ps|
  {
    if ps == [] {
      assert IdsOf(ps) == [] && CommitsOf(ps) == [];
      assert done + [] == done && d.ledger + [] == d.ledger;
    } else {
      RollsNext(d, ps, done);
    }
  }

  /** `plan` finishes the transactions `ps` on `d` after those of `done`. */
  ghost predicate Finishes(d: Disk, ps: seq<Record>, done: seq<Id>, plan: Plan)
    requires forall r :: r in ps ==> r.Prepared?
  {
    var d' := ApplyAll(d, plan.writes);
    && plan.outcome == Returned(done + IdsOf(ps))
    && d'.live == Final(d.live, ps) && d'.bundles == d.bundles && d'.ledger == d.ledger + CommitsOf(ps)
  }

  lemma {:induction false} RollsNext(d: Disk, ps: seq<Record>, done: seq<Id>)
    requires ps != [] && forall r :: r in ps ==> r.Prepared? && SnapshotsValid(d.bundles, r.id, r.targets)
    requires RollForward(d, ps, done).outcome.Returned?
    ensures Finishes(d, ps, done, RollForward(d, ps, done))
    decreases |ps|, 0
  {
    var first := TransactionPlan(d, ps[0]);
    var here := ApplyAll(d, first.writes);
    TransactionFinishes(d, ps[0]);
    var rest := RollForward(here, ps[1..], done + [ps[0].id]);
    RollsAll(here, ps[1..], done + [ps[0].id]);
    FinishesBoth(d, here, ps, done, first.writes, rest);
  }

  lemma FinishesBoth(d: Disk, here: Disk, ps: seq<Record>, done: seq<Id>, ws: seq<Write>, rest: Plan)
    requires ps != [] && (forall r :: r in ps ==> r.Prepared?) && here == ApplyAll(d, ws)
    requires here.live == d.live + AfterFiles(ps[0].targets) && here.bundles == d.bundles
    requires here.ledger == d.ledger + [Committed(ps[0].id, true, ps[0].authorization)]
    requires Finishes(here, ps[1..], done + [ps[0].id], rest)
    ensures Finishes(d, ps, done, Plan(ws + rest.writes, rest.outcome))
  {
    var r, later := ps[0], ps[1..];
    ApplyAllConcat(d, ws, rest.writes);
    assert ps == [r] + later;
    FinalConcat(d.live, [r], later);
    FinalOne(d.live, r);
    assert IdsOf(ps) == [r.id] + IdsOf(later);
    assert done + [r.id] + IdsOf(later) == done + ([r.id] + IdsOf(later));
    CommitsNext(d.ledger, ps);
  }

  lemma CommitsNext(ledger: seq<Record>, ps: seq<Record>)
    requires ps != [] && forall r :: r in ps ==> r.Prepared?
    ensures ledger + [Committed(ps[0].id, true, ps[0].authorization)] + CommitsOf(ps[1..]) == ledger + CommitsOf(ps)
  {
    assert CommitsOf(ps) == [Committed(ps[0].id, true, ps[0].authorization)] + CommitsOf(ps[1..]);
  }

  lemma FinalOne(files: map<Uri, Content>, r: Record)
    requires r.Prepared?
    ensures Final(files, [r]) == files + AfterFiles(r.targets)
  {
    assert [r][..0] == [];
  }

  /** However many transactions are pending, recovery that returns names all of them in ledger order, appends one
      COMMITTED for each, and leaves the files overwritten by what each of them leaves in turn. */
  lemma RecoveryFinishesAll(d: Disk)
    requires RecoverPlan(d).outcome.Returned?
    ensures var ps, plan := Unfinished(d.ledger, |d.ledger|), RecoverPlan(d);
            var d' := ApplyAll(d, plan.writes);
            && plan.outcome.ids == IdsOf(ps)
            && d'.live == Final(d.live, ps) && d'.bundles == d.bundles && d'.ledger == d.ledger + CommitsOf(ps)
  {
    ValidationReads(d.bundles, d.ledger);
    ValidatedIsSound(d.bundles, d.ledger);
    var l := ValidateLedger(d.bundles, d.ledger).value;
    OrderedIs(d.bundles, d.ledger);
    PreparedIdsFiled(l, d.ledger, |d.ledger|);
    UnfinishedAre(l, d.ledger, |d.ledger|);
    var ps := Unfinished(d.ledger, |d.ledger|);
    UnfinishedAccepted(d.bundles, d.ledger, |d.ledger|);
    RollsAll(d, ps, []);
    assert [] + IdsOf(ps) == IdsOf(ps);
  }

  lemma {:induction false} UnfinishedAccepted(bundles: Bundles, records: seq<Record>, n: nat)
    requires n <= |records| && forall i :: 0 <= i < |records| ==> Fits(bundles, records, i)
    ensures forall r :: r in Unfinished(records, n) ==> r.Prepared? && SnapshotsValid(bundles, r.id, r.targets)
  {
    if n > 0 {
      UnfinishedAccepted(bundles, records, n - 1);
      assert Fits(bundles, records, n - 1);
    }
  }

  // ---------- outside edits ----------

  lemma SettledPlan(w: World, d: Disk, live: map<Uri, Content>)
    requires Invariant(w, d) && !Pending(d.ledger)
    ensures RecoverPlan(d.(live := live))
            == Plan([], match VerifyCurrent(d.(live := live)) case None => Returned([]) case Some(e) => Raised(e))
  {
    var ps := PreparedOf(d.ledger);
    SettledValidates(w, d);
    LedgerOfFacts(ps);
    UncommittedNone(LedgerOf(ps), LedgerOf(ps).ordered);
  }

  /** On a settled disk recovery and `verify_current` raise exactly when a file of the latest commit is not as that
      commit left it. */
  lemma EditedSettled(w: World, d: Disk, live: map<Uri, Content>)
    requires Invariant(w, d) && !Pending(d.ledger) && PreparedOf(d.ledger) != []
    ensures var ps := PreparedOf(d.ledger);
            VerifyCurrent(d.(live := live)) == if forall t :: t in ps[|ps| - 1].targets ==> Holds(live, t.path, t.after)
                                               then None else Some(StateDiffers)
  {
    var ps := PreparedOf(d.ledger);
    SettledValidates(w, d);
    assert LedgerOf(ps).prepared[ps[|ps| - 1].id] == ps[|ps| - 1];
  }

  /** An outside edit of one file of a settled disk is noticed exactly when the latest commit wrote that file and the
      edit leaves it different; an edit of any other managed file is not. */
  lemma EditNoticedIff(w: World, d: Disk, uri: Uri, content: Option<Content>)
    requires Invariant(w, d) && !Pending(d.ledger) && PreparedOf(d.ledger) != []
    ensures var d', ps := Step(d, External(uri, content)), PreparedOf(d.ledger);
            && (RecoverPlan(d').outcome.Raised? <==> VerifyCurrent(d') == Some(StateDiffers))
            && (VerifyCurrent(d') == Some(StateDiffers) <==>
                  uri in Paths(ps[|ps| - 1].targets) && !AgreeAt(uri, d'.live, d.live))
  {
    var d', ps := Step(d, External(uri, content)), PreparedOf(d.ledger);
    var r := ps[|ps| - 1];
    LastTargetsHold(w, d);
    EditedSettled(w, d, d'.live);
    SettledPlan(w, d, d'.live);
    assert d.(live := d'.live) == d';
    if uri in Paths(r.targets) {
      var t := Lookup(r.targets, uri);
      assert Holds(d.live, uri, t.after);
      assert Holds(d'.live, uri, t.after) <==> AgreeAt(uri, d'.live, d.live);
      assert forall u: Target :: u in r.targets && u.path == uri ==> Holds(d.live, u.path, u.after);
    }
  }
}
