/** Crash atomicity, restartable recovery and the shape of a commit. */
module TransitionCrash {
  import opened Prelude
  import opened TransitionModel
  import opened TransitionRecords
  import opened TransitionRuns

  // ---------- sequences of storage operations ----------

  /** `p` holds before, between and after the storage operations `ws`. */
  ghost predicate Throughout(p: Disk -> bool, d: Disk, ws: seq<Write>) {
    forall k :: 0 <= k <= |ws| ==> p(ApplyAll(d, ws[..k]))
  }

  lemma ThroughoutConcat(p: Disk -> bool, d: Disk, a: seq<Write>, b: seq<Write>)
    requires Throughout(p, d, a) && Throughout(p, ApplyAll(d, a), b)
    ensures Throughout(p, d, a + b)
  {
    forall k | 0 <= k <= |a + b| ensures p(ApplyAll(d, (a + b)[..k])) {
      if k <= |a| {
        assert (a + b)[..k] == a[..k];
      } else {
        assert (a + b)[..k] == a + b[..k - |a|];
        ApplyAllConcat(d, a, b[..k - |a|]);
      }
    }
  }

  lemma ThroughoutEnd(p: Disk -> bool, d: Disk, ws: seq<Write>)
    requires Throughout(p, d, ws)
    ensures p(d) && p(ApplyAll(d, ws))
  {
    assert ws[..|ws|] == ws && ApplyAll(d, ws[..0]) == d;
  }

  lemma ThroughoutNext(p: Disk -> bool, d: Disk, a: seq<Write>, write: Write)
    requires Throughout(p, d, a) && p(Apply(ApplyAll(d, a), write))
    ensures Throughout(p, d, a + [write])
  {
    var here := ApplyAll(d, a);
    ApplyOne(here, write);
    assert a[..|a|] == a;
    forall k | 0 <= k <= 1 ensures p(ApplyAll(here, [write][..k])) {
      assert [write][..1] == [write];
    }
    ThroughoutConcat(p, d, a, [write]);
  }

  // ---------- moving the staged files into place ----------

  lemma LookupIs(targets: seq<Target>, t: Target)
    requires t in targets && DistinctPaths(targets)
    ensures Lookup(targets, t.path) == t
  {
    var i :| 0 <= i < |targets| && targets[i] == t;
    var j :| 0 <= j < |targets| && targets[j] == Lookup(targets, t.path);
  }

  lemma PathsGrow(targets: seq<Target>)
    requires targets != []
    ensures Paths(targets) == Paths(targets[..|targets| - 1]) + {targets[|targets| - 1].path}
  {
    assert targets == targets[..|targets| - 1] + [targets[|targets| - 1]];
  }

  lemma SameFiles(a: map<Uri, Content>, b: map<Uri, Content>)
    requires forall uri :: AgreeAt(uri, a, b)
    ensures a == b
  {
    forall uri ensures uri in a <==> uri in b {
      assert AgreeAt(uri, a, b);
    }
    forall uri | uri in a ensures a[uri] == b[uri] {
      assert AgreeAt(uri, a, b);
    }
  }

  /** `d'` is `d` with every target of the transaction in place. */
  ghost predicate InPlace(d: Disk, d': Disk, targets: seq<Target>) {
    && d'.bundles == d.bundles && d'.ledger == d.ledger
    && (forall t :: t in targets ==> Holds(d'.live, t.path, t.after))
    && (forall uri :: uri !in Paths(targets) ==> AgreeAt(uri, d'.live, d.live))
  }

  lemma {:induction false} ReplacedInPlace(d: Disk, id: Id, targets: seq<Target>)
    requires SnapshotsValid(d.bundles, id, targets)
    ensures InPlace(d, ApplyAll(d, ReplaceWrites(d, id, targets)), targets)
  {
    if targets != [] {
      var n := |targets| - 1;
      var t := targets[n];
      PathsGrow(targets);
      ReplacedInPlace(d, id, targets[..n]);
      assert targets == targets[..n] + [t];
      var here := ApplyAll(d, ReplaceWrites(d, id, targets[..n]));
      if Holds(d.live, t.path, t.after) {
        assert ReplaceWrites(d, id, targets) == ReplaceWrites(d, id, targets[..n]);
        assert AgreeAt(t.path, here.live, d.live);
      } else {
        var write := ReplaceLive(t.path, Snapshot(d.bundles, id, t.afterSnapshot));
        ApplyAllConcat(d, ReplaceWrites(d, id, targets[..n]), [write]);
        ApplyOne(here, write);
      }
    }
  }

  /** A prefix of the replacements touches only targets not yet in place, and gives them their after-content. */
  ghost predicate PartlyInPlace(d: Disk, d': Disk, targets: seq<Target>) {
    && d'.bundles == d.bundles && d'.ledger == d.ledger
    && (forall t :: t in targets ==> AgreeAt(t.path, d'.live, d.live)
                                     || (!Holds(d.live, t.path, t.after) && Holds(d'.live, t.path, t.after)))
    && (forall uri :: uri !in Paths(targets) ==> AgreeAt(uri, d'.live, d.live))
  }

  lemma {:induction false} PrefixPartlyInPlace(d: Disk, id: Id, targets: seq<Target>, k: nat)
    requires SnapshotsValid(d.bundles, id, targets) && k <= |ReplaceWrites(d, id, targets)|
    ensures PartlyInPlace(d, ApplyAll(d, ReplaceWrites(d, id, targets)[..k]), targets)
  {
    if targets != [] {
      var n := |targets| - 1;
      var t := targets[n];
      var ws, before := ReplaceWrites(d, id, targets), ReplaceWrites(d, id, targets[..n]);
      assert targets == targets[..n] + [t];
      PathsGrow(targets);
      assert t.path !in Paths(targets[..n]);
      if k <= |before| {
        PrefixPartlyInPlace(d, id, targets[..n], k);
        assert ws[..k] == before[..k];
      } else {
        PrefixPartlyInPlace(d, id, targets[..n], |before|);
        var write := ReplaceLive(t.path, Snapshot(d.bundles, id, t.afterSnapshot));
        assert before[..|before|] == before && ws[..k] == before + [write];
        ApplyAllConcat(d, before, [write]);
        ApplyOne(ApplyAll(d, before), write);
      }
    }
  }

  /** Finishing from a partly replaced state gives the same disk as finishing from the start. */
  lemma FinishSame(d: Disk, d': Disk, id: Id, targets: seq<Target>)
    requires SnapshotsValid(d.bundles, id, targets) && PartlyInPlace(d, d', targets)
    ensures ApplyAll(d', ReplaceWrites(d', id, targets)) == ApplyAll(d, ReplaceWrites(d, id, targets))
  {
    ReplacedInPlace(d, id, targets);
    ReplacedInPlace(d', id, targets);
    var a, b := ApplyAll(d, ReplaceWrites(d, id, targets)), ApplyAll(d', ReplaceWrites(d', id, targets));
    forall uri ensures AgreeAt(uri, a.live, b.live) {
      if uri in Paths(targets) {
        var t := Lookup(targets, uri);
        assert Holds(a.live, uri, t.after) && Holds(b.live, uri, t.after);
      } else {
        assert AgreeAt(uri, a.live, d.live) && AgreeAt(uri, b.live, d'.live) && AgreeAt(uri, d'.live, d.live);
      }
    }
    SameFiles(a.live, b.live);
  }

  // ---------- restarting an interrupted recovery ----------

  /** The ledger is valid and `r` is its only uncommitted transaction. */
  ghost predicate OnlyPending(d: Disk, r: Record) {
    var validated := ValidateLedger(d.bundles, d.ledger);
    && validated.Some? && Sound(d.bundles, validated.value)
    && Uncommitted(validated.value, validated.value.ordered) == [r]
  }

  /** A precondition may name a target only if the transaction leaves that file as the precondition wants it. */
  predicate PreconditionsKept(r: Record)
    requires r.Prepared?
  {
    forall p :: p in r.preconditions && p.path in Paths(r.targets) ==> Lookup(r.targets, p.path).after == p.sha256
  }

  /** Dying after any number of writes and recovering again ends on the same disk with the same result. */
  ghost predicate Restartable(d: Disk) {
    var plan := RecoverPlan(d);
    forall k :: 0 <= k < |plan.writes| ==>
      var d' := ApplyAll(d, plan.writes[..k]);
      RecoverPlan(d').outcome == plan.outcome
      && ApplyAll(d', RecoverPlan(d').writes) == ApplyAll(d, plan.writes)
  }

  lemma PendingAccepted(d: Disk, r: Record)
    requires OnlyPending(d, r)
    ensures r.Prepared? && PreparedAccepted(d.bundles, r)
    ensures RecoverPlan(d) == RollForward(d, [r], [])
  {
    var l := ValidateLedger(d.bundles, d.ledger).value;
    UncommittedFromLedger(l, l.ordered, r);
  }

  lemma {:induction false} UncommittedFromLedger(l: Ledger, ordered: seq<Id>, r: Record)
    requires forall id :: id in ordered ==> id in l.prepared && l.prepared[id].Prepared?
    requires r in Uncommitted(l, ordered)
    ensures exists id :: id in ordered && l.prepared[id] == r
  {
    if ordered[0] in Ids(l.committed) || r != l.prepared[ordered[0]] {
      UncommittedFromLedger(l, ordered[1..], r);
    } else {
      assert ordered[0] in ordered;
    }
  }

  /** What the recovery of one transaction writes and returns. */
  ghost predicate RollsForward(d: Disk, r: Record, plan: Plan)
    requires r.Prepared?
  {
    var ws := ReplaceWrites(d, r.id, r.targets);
    var commit := AppendRecord(Committed(r.id, true, r.authorization));
    if !PreconditionsHold(d.live, r.preconditions) then plan == Plan([], Raised(PreconditionChanged))
    else if !TargetsKnown(d.live, r.targets) then plan == Plan([], Raised(UnknownTargetState))
    else
      && plan.writes == ws + [commit]
      && plan.outcome == match VerifyCurrent(ApplyAll(d, ws + [commit]))
                         case None => Returned([r.id])
                         case Some(error) => Raised(error)
  }

  lemma RollOne(d: Disk, r: Record)
    requires r.Prepared?
    ensures RollsForward(d, r, RollForward(d, [r], []))
  {
    var first := TransactionPlan(d, r);
    assert [r][1..] == [];
    if first.outcome.Returned? {
      var rest := RollForward(ApplyAll(d, first.writes), [], [r.id]);
      assert first.writes + rest.writes == first.writes;
      assert [] + [r.id] == [r.id];
    }
  }

  lemma OnePlan(d: Disk, r: Record)
    requires OnlyPending(d, r) && r.Prepared?
    ensures RollsForward(d, r, RecoverPlan(d))
  {
    PendingAccepted(d, r);
    RollOne(d, r);
  }

  lemma RestartAt(d: Disk, r: Record, k: nat)
    requires OnlyPending(d, r) && r.Prepared? && RecoverPlan(d).outcome.Returned?
    requires PreconditionsKept(r) && k < |RecoverPlan(d).writes|
    ensures var d' := ApplyAll(d, RecoverPlan(d).writes[..k]);
            && RecoverPlan(d').outcome == RecoverPlan(d).outcome
            && ApplyAll(d', RecoverPlan(d').writes) == ApplyAll(d, RecoverPlan(d).writes)
  {
    PendingAccepted(d, r);
    OnePlan(d, r);
    var ws := ReplaceWrites(d, r.id, r.targets);
    var commit := AppendRecord(Committed(r.id, true, r.authorization));
    assert (ws + [commit])[..k] == ws[..k];
    var d' := ApplyAll(d, ws[..k]);
    PrefixPartlyInPlace(d, r.id, r.targets, k);
    StillKnown(d, d', r);
    OnePlan(d', r);
    FinishSame(d, d', r.id, r.targets);
    ApplyAllConcat(d, ws, [commit]);
    ApplyAllConcat(d', ReplaceWrites(d', r.id, r.targets), [commit]);
  }

  lemma StillKnown(d: Disk, d': Disk, r: Record)
    requires r.Prepared? && PartlyInPlace(d, d', r.targets) && PreconditionsKept(r)
    requires PreconditionsHold(d.live, r.preconditions) && TargetsKnown(d.live, r.targets)
    ensures PreconditionsHold(d'.live, r.preconditions) && TargetsKnown(d'.live, r.targets)
  {
    forall p | p in r.preconditions ensures Holds(d'.live, p.path, p.sha256) {
      if p.path in Paths(r.targets) {
        assert Lookup(r.targets, p.path) in r.targets;
      }
      assert AgreeAt(p.path, d'.live, d.live);
    }
  }

  /** Recovery of a pending transaction survives a crash at every point exactly when no precondition names a file the
      transaction changes. */
  lemma RestartableIff(d: Disk, r: Record)
    requires OnlyPending(d, r) && r.Prepared? && RecoverPlan(d).outcome.Returned?
    ensures Restartable(d) <==> PreconditionsKept(r)
  {
    if PreconditionsKept(r) {
      forall k | 0 <= k < |RecoverPlan(d).writes|
        ensures var d' := ApplyAll(d, RecoverPlan(d).writes[..k]);
                && RecoverPlan(d').outcome == RecoverPlan(d).outcome
                && ApplyAll(d', RecoverPlan(d').writes) == ApplyAll(d, RecoverPlan(d).writes)
      {
        RestartAt(d, r, k);
      }
    } else {
      OverlapStrands(d, r);
    }
  }

  /** Once every target is replaced but COMMITTED is not yet appended, a precondition on a replaced file is lost. */
  lemma OverlapStrands(d: Disk, r: Record)
    requires OnlyPending(d, r) && r.Prepared? && RecoverPlan(d).outcome.Returned?
    requires !PreconditionsKept(r)
    ensures var ws := ReplaceWrites(d, r.id, r.targets);
            && ws < RecoverPlan(d).writes
            && RecoverPlan(ApplyAll(d, ws)) == Plan([], Raised(PreconditionChanged))
    ensures !Restartable(d)
  {
    PendingAccepted(d, r);
    OnePlan(d, r);
    var ws := ReplaceWrites(d, r.id, r.targets);
    ReplacedInPlace(d, r.id, r.targets);
    var d' := ApplyAll(d, ws);
    var p :| p in r.preconditions && p.path in Paths(r.targets) && Lookup(r.targets, p.path).after != p.sha256;
    assert Holds(d'.live, p.path, Lookup(r.targets, p.path).after);
    assert !Holds(d'.live, p.path, p.sha256);
    OnePlan(d', r);
    assert RecoverPlan(d).writes[..|ws|] == ws;
  }

  /** A target holding neither its before- nor its after-content stops recovery before anything is written. */
  lemma UnknownStateFailsClosed(d: Disk, r: Record, t: Target)
    requires OnlyPending(d, r) && r.Prepared? && t in r.targets
    requires Sha256(Read(d.live, t.path)) != t.before && Sha256(Read(d.live, t.path)) != t.after
    ensures RecoverPlan(d).writes == [] && RecoverPlan(d).outcome.Raised?
  {
    OnePlan(d, r);
  }
}
