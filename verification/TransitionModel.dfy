/** The durable state of the canonical transition store and what its operations write to it.

    A digest and a transition id are free constructors over what they hash, so hashing is injective and no value
    contains its own hash. Timestamps, JSON encoding and the text of error messages are abstracted. */
module TransitionModel {
  import opened Prelude

  type Uri = string

  /** A file's bytes: an encoded JSON object, of which only the fields the store reads are named, or anything else. */
  datatype Content = Text(text: string) | Document(doc: Doc)
  datatype Doc = Doc(claimGraph: Option<Uri>, claimGraphSha256: Option<Digest>, lastTransitionId: Option<Id>,
                     rest: string)
  datatype Digest = Sha256(content: Content)
  datatype Id = TransitionId(seed: Seed)
  datatype Seed = Seed(authorization: string, before: map<Uri, Digest>, after: map<Uri, Digest>,
                       claimGraphSha256: Digest, preconditions: map<Uri, Digest>)

  datatype SnapshotName = BeforeFile(index: nat) | AfterFile(index: nat)
  datatype Precondition = Precondition(path: Uri, sha256: Digest)
  datatype Target = Target(path: Uri, before: Digest, after: Digest, beforeSnapshot: SnapshotName,
                           afterSnapshot: SnapshotName)
  datatype Record =
    | Prepared(id: Id, authorization: string, preconditions: seq<Precondition>, targets: seq<Target>)
    | Committed(id: Id, recovered: bool, authorization: string)

  type Bundles = map<(Id, SnapshotName), Content>
  datatype Disk = Disk(live: map<Uri, Content>, bundles: Bundles, ledger: seq<Record>)

  /** One crash-atomic storage operation. */
  datatype Write =
    | WriteSnapshot(id: Id, name: SnapshotName, content: Content)
    | AppendRecord(record: Record)
    | ReplaceLive(uri: Uri, content: Content)

  datatype Error =
    | InvalidLedger | PreconditionChanged | UnknownTargetState | StateDiffers
    | NoTargets | NoTrustedTarget | NotAnObject
  datatype Outcome = Returned(ids: seq<Id>) | Raised(error: Error) | Crashed

  /** What an operation writes, in order, and how it ends when nothing interrupts it. */
  datatype Plan = Plan(writes: seq<Write>, outcome: Outcome)

  function Apply(d: Disk, w: Write): Disk {
    match w
    case WriteSnapshot(id, name, content) => d.(bundles := d.bundles[(id, name) := content])
    case AppendRecord(record) => d.(ledger := d.ledger + [record])
    case ReplaceLive(uri, content) => d.(live := d.live[uri := content])
  }

  function ApplyAll(d: Disk, ws: seq<Write>): Disk
    decreases |ws|
  {
    if ws == [] then d else ApplyAll(Apply(d, ws[0]), ws[1..])
  }

  lemma {:induction false} ApplyAllConcat(d: Disk, a: seq<Write>, b: seq<Write>)
    ensures ApplyAll(d, a + b) == ApplyAll(ApplyAll(d, a), b)
    decreases |a|
  {
    if a == [] {
      assert a + b == b;
    } else {
      assert (a + b)[1..] == a[1..] + b;
      ApplyAllConcat(Apply(d, a[0]), a[1..], b);
    }
  }

  lemma ApplyOne(d: Disk, a: Write)
    ensures ApplyAll(d, [a]) == Apply(d, a)
  {
    assert ApplyAll(Apply(d, a), [a][1..]) == Apply(d, a);
  }

  lemma ApplyTwo(d: Disk, a: Write, b: Write)
    ensures ApplyAll(d, [a, b]) == Apply(Apply(d, a), b)
  {
    ApplyAllConcat(d, [a], [b]);
    ApplyOne(d, a);
    ApplyOne(Apply(d, a), b);
    assert [a, b] == [a] + [b];
  }

  /** An operation with `fuel` storage operations left before the process dies does what `plan` says. */
  ghost predicate Performs(before: Disk, fuel: nat, plan: Plan, after: Disk, left: nat, outcome: Outcome) {
    if fuel < |plan.writes| then
      outcome == Crashed && after == ApplyAll(before, plan.writes[..fuel]) && left == 0
    else
      outcome == plan.outcome && after == ApplyAll(before, plan.writes) && left == fuel - |plan.writes|
  }

  // ---------- reading ----------

  function Read(live: map<Uri, Content>, uri: Uri): Content {
    if uri in live then live[uri] else Text("")
  }

  predicate Holds(live: map<Uri, Content>, uri: Uri, sha256: Digest) {
    uri in live && Sha256(live[uri]) == sha256
  }

  predicate SnapshotMatches(bundles: Bundles, id: Id, name: SnapshotName, sha256: Digest) {
    (id, name) in bundles && Sha256(bundles[(id, name)]) == sha256
  }

  // ---------- PREPARED records ----------

  function Paths(targets: seq<Target>): set<Uri> {
    set t | t in targets :: t.path
  }

  predicate DistinctPaths(targets: seq<Target>) {
    forall i, j :: 0 <= i < j < |targets| ==> targets[i].path != targets[j].path
  }

  predicate DistinctPreconditions(ps: seq<Precondition>) {
    forall i, j :: 0 <= i < j < |ps| ==> ps[i].path != ps[j].path
  }

  function Lookup(targets: seq<Target>, uri: Uri): (t: Target)
    requires uri in Paths(targets)
    ensures t in targets && t.path == uri
  {
    if targets[0].path == uri then targets[0] else Lookup(targets[1..], uri)
  }

  function PreconditionMap(ps: seq<Precondition>): map<Uri, Digest> {
    if ps == [] then map[] else
      PreconditionMap(ps[..|ps| - 1])[ps[|ps| - 1].path := ps[|ps| - 1].sha256]
  }

  /** The after-snapshot of a target is a JSON object carrying this transition's id. */
  predicate CarriesId(bundles: Bundles, id: Id, t: Target) {
    && (id, t.afterSnapshot) in bundles
    && var after := bundles[(id, t.afterSnapshot)];
    && after.Document? && after.doc.lastTransitionId == Some(id)
  }

  function TrustedTargets(bundles: Bundles, id: Id, targets: seq<Target>): (r: seq<Target>)
    ensures forall t :: t in r ==> t in targets && CarriesId(bundles, id, t)
  {
    if targets == [] then [] else
      var t := targets[|targets| - 1];
      TrustedTargets(bundles, id, targets[..|targets| - 1]) + if CarriesId(bundles, id, t) then [t] else []
  }

  /** The targets other than the trusted state whose after-digest is `sha256`. */
  function GraphTargets(targets: seq<Target>, trusted: Uri, sha256: Digest): (r: seq<Target>)
    ensures forall t :: t in r ==> t in targets && t.path != trusted && t.after == sha256
  {
    if targets == [] then [] else
      var t := targets[|targets| - 1];
      GraphTargets(targets[..|targets| - 1], trusted, sha256)
      + if t.path != trusted && t.after == sha256 then [t] else []
  }

  /** The claim-graph target the trusted state names or, when it names none, the only other target with that digest. */
  function GraphUri(doc: Doc, targets: seq<Target>, trusted: Uri, sha256: Digest): Option<Uri> {
    if doc.claimGraph.Some? then doc.claimGraph else
      var matching := GraphTargets(targets, trusted, sha256);
      if |matching| == 1 then Some(matching[0].path) else None
  }

  predicate BindsGraph(doc: Doc, targets: seq<Target>, trusted: Uri) {
    && doc.claimGraphSha256.Some?
    && var sha256 := doc.claimGraphSha256.value;
    && var uri := GraphUri(doc, targets, trusted, sha256);
    && uri.Some? && uri.value in Paths(targets) && Lookup(targets, uri.value).after == sha256
  }

  function RecordSeed(authorization: string, ps: seq<Precondition>, targets: seq<Target>, trusted: Uri,
                      sha256: Digest): Seed
  {
    Seed(authorization,
         map uri | uri in Paths(targets) :: Lookup(targets, uri).before,
         map uri | uri in Paths(targets) && uri != trusted :: Lookup(targets, uri).after,
         sha256, PreconditionMap(ps))
  }

  /** Every target is listed once and both its snapshots are present and unchanged. */
  predicate SnapshotsValid(bundles: Bundles, id: Id, targets: seq<Target>) {
    && DistinctPaths(targets)
    && forall t :: t in targets ==> SnapshotMatches(bundles, id, t.beforeSnapshot, t.before)
                                    && SnapshotMatches(bundles, id, t.afterSnapshot, t.after)
  }

  predicate PreparedAccepted(bundles: Bundles, r: Record)
    requires r.Prepared?
  {
    && DistinctPreconditions(r.preconditions)
    && r.targets != [] && SnapshotsValid(bundles, r.id, r.targets)
    && var trusted := TrustedTargets(bundles, r.id, r.targets);
    && |trusted| == 1
    && assert trusted[0] in trusted;
       var doc := bundles[(r.id, trusted[0].afterSnapshot)].doc;
       && BindsGraph(doc, r.targets, trusted[0].path)
       && r.id == TransitionId(RecordSeed(r.authorization, r.preconditions, r.targets, trusted[0].path,
                                          doc.claimGraphSha256.value))
  }

  // ---------- the ledger ----------

  datatype Ledger = Ledger(ordered: seq<Id>, prepared: map<Id, Record>, committed: seq<Record>)

  function Ids(records: seq<Record>): set<Id> {
    set r | r in records :: r.id
  }

  /** One pass of the validation loop: `None` is the raised error. */
  function ValidateRecord(bundles: Bundles, l: Ledger, r: Record): Option<Ledger> {
    match r
    case Prepared(id, _, _, _) =>
      if id in l.prepared || !PreparedAccepted(bundles, r) then None
      else Some(l.(ordered := l.ordered + [id], prepared := l.prepared[id := r]))
    case Committed(id, _, authorization) =>
      if id in Ids(l.committed) || id !in l.prepared || authorization != l.prepared[id].authorization then None
      else Some(l.(committed := l.committed + [r]))
  }

  function ValidateLedger(bundles: Bundles, records: seq<Record>): Option<Ledger> {
    if records == [] then Some(Ledger([], map[], [])) else
      match ValidateLedger(bundles, records[..|records| - 1])
      case None => None
      case Some(l) => ValidateRecord(bundles, l, records[|records| - 1])
  }

  /** What validation establishes about the dictionaries it returns. */
  ghost predicate Sound(bundles: Bundles, l: Ledger) {
    && (forall id :: id in l.ordered ==> id in l.prepared)
    && (forall r :: r in l.committed ==> r.Committed? && r.id in l.prepared)
    && (forall id :: id in l.prepared ==>
          l.prepared[id].Prepared? && l.prepared[id].id == id && PreparedAccepted(bundles, l.prepared[id]))
  }

  lemma {:induction false} ValidatedIsSound(bundles: Bundles, records: seq<Record>)
    ensures ValidateLedger(bundles, records).Some? ==> Sound(bundles, ValidateLedger(bundles, records).value)
  {
    if records != [] {
      ValidatedIsSound(bundles, records[..|records| - 1]);
    }
  }

  function VerifyCurrent(d: Disk): Option<Error> {
    match ValidateLedger(d.bundles, d.ledger)
    case None => Some(InvalidLedger)
    case Some(l) =>
      if l.committed == [] then None else
        var id := l.committed[|l.committed| - 1].id;
        if id in l.prepared && l.prepared[id].Prepared?
           && forall t :: t in l.prepared[id].targets ==> Holds(d.live, t.path, t.after)
        then None else Some(StateDiffers)
  }

  // ---------- recover ----------

  predicate PreconditionsHold(live: map<Uri, Content>, ps: seq<Precondition>) {
    forall p :: p in ps ==> Holds(live, p.path, p.sha256)
  }

  /** Each target is still as the transaction found it or already as it leaves it. */
  predicate TargetsKnown(live: map<Uri, Content>, targets: seq<Target>) {
    forall t :: t in targets ==> Sha256(Read(live, t.path)) == t.before || Sha256(Read(live, t.path)) == t.after
  }

  function Snapshot(bundles: Bundles, id: Id, name: SnapshotName): Content {
    if (id, name) in bundles then bundles[(id, name)] else Text("")
  }

  function ReplaceWrites(d: Disk, id: Id, targets: seq<Target>): seq<Write> {
    if targets == [] then [] else
      var t := targets[|targets| - 1];
      var earlier := ReplaceWrites(d, id, targets[..|targets| - 1]);
      if Holds(d.live, t.path, t.after) then earlier
      else earlier + [ReplaceLive(t.path, Snapshot(d.bundles, id, t.afterSnapshot))]
  }

  function TransactionPlan(d: Disk, r: Record): Plan
    requires r.Prepared?
  {
    if !PreconditionsHold(d.live, r.preconditions) then Plan([], Raised(PreconditionChanged))
    else if !TargetsKnown(d.live, r.targets) then Plan([], Raised(UnknownTargetState))
    else Plan(ReplaceWrites(d, r.id, r.targets) + [AppendRecord(Committed(r.id, true, r.authorization))],
              Returned([r.id]))
  }

  /** Roll the pending transactions forward in ledger order, then verify. */
  function RollForward(d: Disk, pending: seq<Record>, done: seq<Id>): Plan
    requires forall r :: r in pending ==> r.Prepared?
    decreases |pending|
  {
    if pending == [] then
      match VerifyCurrent(d)
      case None => Plan([], Returned(done))
      case Some(error) => Plan([], Raised(error))
    else
      var first := TransactionPlan(d, pending[0]);
      if first.outcome.Raised? then first else
        var rest := RollForward(ApplyAll(d, first.writes), pending[1..], done + [pending[0].id]);
        Plan(first.writes + rest.writes, rest.outcome)
  }

  function Uncommitted(l: Ledger, ordered: seq<Id>): (pending: seq<Record>)
    requires forall id :: id in ordered ==> id in l.prepared && l.prepared[id].Prepared?
    ensures forall r :: r in pending ==> r.Prepared?
  {
    if ordered == [] then [] else
      (if ordered[0] in Ids(l.committed) then [] else [l.prepared[ordered[0]]]) + Uncommitted(l, ordered[1..])
  }

  function RecoverPlan(d: Disk): Plan {
    ValidatedIsSound(d.bundles, d.ledger);
    match ValidateLedger(d.bundles, d.ledger)
    case None => Plan([], Raised(InvalidLedger))
    case Some(l) => RollForward(d, Uncommitted(l, l.ordered), [])
  }

  // ---------- commit ----------

  datatype Request = Request(targets: map<Uri, Content>, authorization: string, trusted: Uri,
                             claimGraphSha256: Digest, preconditions: map<Uri, Digest>)

  function RequestSeed(live: map<Uri, Content>, req: Request): Seed {
    Seed(req.authorization,
         map uri | uri in req.targets :: Sha256(Read(live, uri)),
         map uri | uri in req.targets && uri != req.trusted :: Sha256(req.targets[uri]),
         req.claimGraphSha256, req.preconditions)
  }

  function RequestId(live: map<Uri, Content>, req: Request): Id {
    TransitionId(RequestSeed(live, req))
  }

  /** The targets with the graph digest and the transition id written into the trusted state. */
  function StampedTargets(live: map<Uri, Content>, req: Request): map<Uri, Content>
    requires req.trusted in req.targets && req.targets[req.trusted].Document?
  {
    var doc := req.targets[req.trusted].doc;
    req.targets[req.trusted := Document(doc.(claimGraphSha256 := Some(req.claimGraphSha256),
                                             lastTransitionId := Some(RequestId(live, req))))]
  }

  function TargetRecord(live: map<Uri, Content>, targets: map<Uri, Content>, uri: Uri, index: nat): Target
    requires uri in targets
  {
    Target(uri, Sha256(Read(live, uri)), Sha256(targets[uri]), BeforeFile(index), AfterFile(index))
  }

  function TargetRecords(live: map<Uri, Content>, targets: map<Uri, Content>, uris: seq<Uri>): seq<Target>
    requires forall uri :: uri in uris ==> uri in targets
  {
    seq(|uris|, i requires 0 <= i < |uris| => TargetRecord(live, targets, uris[i], i))
  }

  function SnapshotWrites(live: map<Uri, Content>, id: Id, targets: map<Uri, Content>, uris: seq<Uri>): seq<Write>
    requires forall uri :: uri in uris ==> uri in targets
  {
    if uris == [] then [] else
      var n := |uris| - 1;
      SnapshotWrites(live, id, targets, uris[..n])
      + [WriteSnapshot(id, BeforeFile(n), Read(live, uris[n])), WriteSnapshot(id, AfterFile(n), targets[uris[n]])]
  }

  function PreconditionList(ps: map<Uri, Digest>, uris: seq<Uri>): seq<Precondition>
    requires forall uri :: uri in uris ==> uri in ps
  {
    seq(|uris|, i requires 0 <= i < |uris| => Precondition(uris[i], ps[uris[i]]))
  }

  function PreparedRecord(live: map<Uri, Content>, req: Request): Record
    requires req.trusted in req.targets && req.targets[req.trusted].Document?
  {
    var targets := StampedTargets(live, req);
    Prepared(RequestId(live, req), req.authorization,
             PreconditionList(req.preconditions, SortSet(req.preconditions.Keys)),
             TargetRecords(live, targets, SortSet(targets.Keys)))
  }

  function PrepareWrites(live: map<Uri, Content>, req: Request): seq<Write>
    requires req.trusted in req.targets && req.targets[req.trusted].Document?
  {
    var targets := StampedTargets(live, req);
    SnapshotWrites(live, RequestId(live, req), targets, SortSet(targets.Keys))
    + [AppendRecord(PreparedRecord(live, req))]
  }

  predicate RequestPreconditionsHold(live: map<Uri, Content>, ps: map<Uri, Digest>) {
    forall uri :: uri in ps ==> Holds(live, uri, ps[uri])
  }

  predicate CommittedIn(ledger: seq<Record>, id: Id) {
    exists r :: r in ledger && r.Committed? && r.id == id
  }

  /** What `commit` does after its first recovery. */
  function PreparePlan(d: Disk, req: Request): Plan {
    if !RequestPreconditionsHold(d.live, req.preconditions) then Plan([], Raised(PreconditionChanged))
    else if req.trusted !in req.targets then Plan([], Raised(NoTrustedTarget))
    else if !req.targets[req.trusted].Document? then Plan([], Raised(NotAnObject))
    else
      var id := RequestId(d.live, req);
      if CommittedIn(d.ledger, id) then
        match VerifyCurrent(d)
        case None => Plan([], Returned([id]))
        case Some(error) => Plan([], Raised(error))
      else StagePlan(d, req)
  }

  /** Stage the snapshots, append PREPARED and roll forward. */
  function StagePlan(d: Disk, req: Request): Plan
    requires req.trusted in req.targets && req.targets[req.trusted].Document?
  {
    var id := RequestId(d.live, req);
    Then(Plan(PrepareWrites(d.live, req), Returned([])), d, after => After(RecoverPlan(after), [id]))
  }

  /** `plan` followed, if it returns, by the plan of what comes next on the disk it leaves. */
  function Then(plan: Plan, d: Disk, next: Disk -> Plan): Plan {
    if !plan.outcome.Returned? then plan else
      var rest := next(ApplyAll(d, plan.writes));
      Plan(plan.writes + rest.writes, rest.outcome)
  }

  function After(plan: Plan, ids: seq<Id>): Plan {
    if plan.outcome.Returned? then plan.(outcome := Returned(ids)) else plan
  }

  function CommitPlan(d: Disk, req: Request): Plan {
    if req.targets == map[] then Plan([], Raised(NoTargets))
    else Then(RecoverPlan(d), d, after => PreparePlan(after, req))
  }
}
