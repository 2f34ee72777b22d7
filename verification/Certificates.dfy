/** Certificate requests: a policy decision with its audit, rechecked on every download until the
    certificate is released again or the request is held for Operations. One request is one
    partition of the document store; any number of customers' calls interleave on it. */
module Certificates {
  import opened Results
  import opened DocumentStore

  // ---------------------------------------------------------------- decisions and records

  /** The bytes of a file; a digest is a free constructor, so equal digests are equal bytes. */
  datatype Bytes = Bytes(isPdf: bool, content: nat)

  datatype Digest = Digest(bytes: Bytes)

  datatype Artifact = Artifact(document: nat, version: nat, sha: Digest)

  datatype Outcome = ReleaseReady | OperationsRequired

  datatype Check = Check(passed: bool, reason: nat)

  datatype Decision = Decision(
    evaluatedAt: int, sources: nat, outcome: Outcome, ownership: Check, validity: Check, service: Check, artifact: Option<Artifact>)

  /** The decision contract: released exactly when all three checks pass, and then with its
      artifact. */
  predicate Lawful(d: Decision) {
    && (d.outcome.ReleaseReady? <==> d.ownership.passed && d.validity.passed && d.service.passed)
    && (d.artifact.Some? <==> d.outcome.ReleaseReady?)
  }

  datatype Kind = Requested | PolicyChecked | Released | Held | CaseCreated | DownloadPrepared

  datatype Event = Event(sequence: nat, kind: Kind, at: int)

  datatype Case = Case(request: nat, assignee: nat, reasons: seq<nat>)

  datatype Identity = Identity(request: nat, tenant: nat, actor: nat, customer: nat, equipment: nat)

  datatype DecisionHash = DecisionHash(identity: Identity, decision: Decision)

  datatype Record = Record(
    identity: Identity, context: Option<nat>, decision: Decision, hash: DecisionHash, opsCase: Option<Case>, events: seq<Event>)

  predicate TimesOrdered(events: seq<Event>) {
    forall i :: 0 < i < |events| ==> events[i - 1].at <= events[i].at
  }

  /** The record contract. */
  predicate Consistent(r: Record) {
    && Lawful(r.decision)
    && (r.opsCase.Some? <==> r.decision.outcome.OperationsRequired?)
    && |r.events| >= 3
    && (forall i :: 0 <= i < |r.events| ==> r.events[i].sequence == i + 1)
    && TimesOrdered(r.events)
  }

  // ---------------------------------------------------------------- the store

  datatype DocId = SnapshotId | EventId(sequence: nat) | CaseId | OutboxId

  /** An event document keeps the decision of a policy check for good; the snapshot holds only
      the latest. */
  datatype Doc = SnapshotDoc(record: Record) | EventDoc(event: Event, decision: Option<Decision>) | CaseDoc(opsCase: Case) | OutboxDoc(opsCase: Case)

  function EventBody(r: Record, n: nat): Doc
    requires 1 <= n <= |r.events|
  {
    EventDoc(r.events[n - 1], if r.events[n - 1].kind.PolicyChecked? then Some(r.decision) else None)
  }

  /** The one batch of a commit: the snapshot, the new events, and a new case with its outbox
      entry. `previous` is the record the commit read, with its tag. */
  function CommitWrites(r: Record, expected: nat, previous: Option<(Record, nat)>): Writes<DocId, Doc> {
    var snapshot := if previous.None? then Create(SnapshotDoc(r)) else Replace(SnapshotDoc(r), previous.value.1);
    var events := map n: nat | expected < n <= |r.events| :: EventId(n) := Create(EventBody(r, n));
    var opens := r.opsCase.Some? && (previous.None? || previous.value.0.opsCase.None?);
    map[SnapshotId := snapshot] + events
    + if opens then map[CaseId := Create(CaseDoc(r.opsCase.value)), OutboxId := Create(OutboxDoc(r.opsCase.value))] else map[]
  }

  // ---------------------------------------------------------------- the controller

  datatype Config = Config(request: nat, tenant: nat, customers: map<nat, nat>, operations: nat)

  /** Where a call stands. `read` and `checked` are the moments of the byte read and of the
      latest policy evaluation. */
  datatype Position =
    | Idle
    | Evaluating(identity: Identity, context: Option<nat>)
    | Creating(draft: Record, context: Option<nat>)
    | Losing(identity: Identity, context: Option<nat>)
    | Checking(asker: Asker, snap: Record)
    | ReadingPdf(asker: Asker, snap: Record, decision: Decision)
    | Rechecking(asker: Asker, snap: Record, bytes: Bytes, read: nat)
    | Committing(asker: Asker, snap: Record, updated: Record, pdf: Option<(Bytes, nat, nat)>)
    | Storing(asker: Asker, snap: Record, updated: Record, pdf: Option<(Bytes, nat, nat)>, etag: nat)

  /** Who calls: the verified tenant and user. */
  datatype Asker = Asker(tenant: nat, actor: nat)

  /** A download that returned its bytes: to whom, the number of its audit event, and the two
      moments. */
  datatype Release = Release(asker: Asker, bytes: Bytes, event: nat, read: nat, checked: nat)

  /** A request that returned: for which target and context, and with which record. */
  datatype Answer = Answer(identity: Identity, context: Option<nat>, record: Record)

  datatype System = System(
    config: Config, docs: Partition<DocId, Doc>, callers: map<nat, Position>, clock: nat, answers: seq<Answer>, releases: seq<Release>)

  function Initial(config: Config): System {
    System(config, Partition(map[], 0), map[], 0, [], [])
  }

  function At(s: System, w: nat): Position {
    if w in s.callers then s.callers[w] else Idle
  }

  function Goto(s: System, w: nat, p: Position): System {
    s.(callers := s.callers[w := p])
  }

  predicate HasRecord(s: System) {
    SnapshotId in s.docs.docs && s.docs.docs[SnapshotId].body.SnapshotDoc?
  }

  function Stored(s: System): Record
    requires HasRecord(s)
  {
    s.docs.docs[SnapshotId].body.record
  }

  function TagOf(s: System): nat
    requires HasRecord(s)
  {
    s.docs.docs[SnapshotId].etag
  }

  /** Each reason once, in the order of the first failure that gives it. */
  function Unique(reasons: seq<nat>): (r: seq<nat>)
    ensures forall x :: x in r <==> x in reasons
    ensures forall i, j :: 0 <= i < j < |r| ==> r[i] != r[j]
  {
    if reasons == [] then []
    else
      var init, last := Unique(reasons[..|reasons| - 1]), reasons[|reasons| - 1];
      assert reasons == reasons[..|reasons| - 1] + [last];
      if last in init then init else init + [last]
  }

  function Reasons(d: Decision): seq<nat> {
    Unique((if d.ownership.passed then [] else [d.ownership.reason])
      + (if d.validity.passed then [] else [d.validity.reason])
      + if d.service.passed then [] else [d.service.reason])
  }

  function Tail(d: Decision, prepared: bool): seq<Kind> {
    if d.outcome.OperationsRequired? then [PolicyChecked, Held, CaseCreated]
    else if prepared then [PolicyChecked, DownloadPrepared]
    else [PolicyChecked, Released]
  }

  function Stamp(kinds: seq<Kind>, from: nat, at: int): (events: seq<Event>)
    ensures |events| == |kinds|
    ensures forall i :: 0 <= i < |kinds| ==> events[i] == Event(from + i + 1, kinds[i], at)
  {
    if kinds == [] then [] else [Event(from + 1, kinds[0], at)] + Stamp(kinds[1..], from + 1, at)
  }

  /** `_record`: the record a decision makes of the prior one. */
  function Draft(config: Config, identity: Identity, context: Option<nat>, d: Decision, prior: seq<Event>, prepared: bool): Record {
    var kinds := (if prior == [] then [Requested] else []) + Tail(d, prepared);
    Record(
      identity, context, d, DecisionHash(identity, d),
      if d.outcome.OperationsRequired? then Some(Case(config.request, config.operations, Reasons(d))) else None,
      prior + Stamp(kinds, |prior|, d.evaluatedAt))
  }

  /** `_existing` and the two checks of `request` on what it finds. */
  predicate Answers(r: Record, identity: Identity, context: Option<nat>) {
    && r.identity == identity && r.hash == DecisionHash(r.identity, r.decision)
    && (context.Some? ==> r.context == context)
  }

  /** The decision that a failed artifact check turns the evaluation into. */
  function Failed(d: Decision, reason: nat): Decision {
    d.(outcome := OperationsRequired, validity := Check(false, reason), artifact := None)
  }

  const ARTIFACT_CHANGED := 1
  const ARTIFACT_UNAVAILABLE := 2

  datatype Act =
    | RequestLoad(tenant: nat, actor: nat, equipment: nat, context: Option<nat>)
    | RequestEvaluate(decision: Decision)
    | RequestStore(acked: bool)
    | RequestWinner
    | DownloadLoad(tenant: nat, actor: nat)
    | DownloadEvaluate(decision: Decision)
    | DownloadRead(pdf: Option<Bytes>)
    | DownloadRecheck(decision: Decision)
    | CommitLoad
    | CommitStore(acked: bool)
    | Crash

  datatype Step = Step(caller: nat, act: Act)

  /** Every step is a moment of its own. */
  function Next(s: System, step: Step): System {
    Take(s.(clock := s.clock + 1), step)
  }

  function Take(s: System, step: Step): System {
    var w, p := step.caller, At(s, step.caller);
    match step.act
    case RequestLoad(tenant, actor, equipment, context) =>
      if p.Idle? && Known(s.config, tenant, actor) then NextRequest(s, w, IdentityOf(s.config, actor, equipment), context) else s
    case RequestEvaluate(decision) =>
      if p.Evaluating? && Lawful(decision)
      then Goto(s, w, Creating(Draft(s.config, p.identity, p.context, decision, [], false), p.context)) else s
    case RequestStore(acked) => if p.Creating? then NextCreate(s, w, p, acked) else s
    case RequestWinner => if p.Losing? then NextWinner(s, w, p.identity, p.context) else s
    case DownloadLoad(tenant, actor) => if p.Idle? && Known(s.config, tenant, actor) then NextDownload(s, w, Asker(tenant, actor)) else s
    case DownloadEvaluate(decision) => if p.Checking? && Lawful(decision) then NextEvaluate(s, w, p, decision) else s
    case DownloadRead(pdf) => if p.ReadingPdf? then NextPdf(s, w, p, pdf) else s
    case DownloadRecheck(decision) => if p.Rechecking? && Lawful(decision) then NextRecheck(s, w, p, decision) else s
    case CommitLoad => if p.Committing? then NextCommit(s, w, p) else s
    case CommitStore(acked) => if p.Storing? then NextStore(s, w, p, acked) else s
    case Crash => Goto(s, w, Idle)
  }

  predicate Known(config: Config, tenant: nat, actor: nat) {
    tenant == config.tenant && actor in config.customers
  }

  function IdentityOf(config: Config, actor: nat, equipment: nat): Identity
    requires actor in config.customers
  {
    Identity(config.request, config.tenant, actor, config.customers[actor], equipment)
  }

  function NextRequest(s: System, w: nat, identity: Identity, context: Option<nat>): System {
    if HasRecord(s) then NextWinner(s, w, identity, context) else Goto(s, w, Evaluating(identity, context))
  }

  /** The record that is there answers the request only if it is for the identical target. */
  function NextWinner(s: System, w: nat, identity: Identity, context: Option<nat>): System {
    if HasRecord(s) && Answers(Stored(s), identity, context)
    then Goto(s.(answers := s.answers + [Answer(identity, context, Stored(s))]), w, Idle)
    else Goto(s, w, Idle)
  }

  function NextCreate(s: System, w: nat, p: Position, acked: bool): System
    requires p.Creating?
  {
    var writes := CommitWrites(p.draft, 0, None);
    if !Consistent(p.draft) then Goto(s, w, Idle)
    else if !Admits(s.docs, writes) then Goto(s, w, Losing(p.draft.identity, p.context))
    else Goto(
      s.(docs := Batch(s.docs, writes),
         answers := s.answers + if acked then [Answer(p.draft.identity, p.context, p.draft)] else []),
      w, Idle)
  }

  function NextDownload(s: System, w: nat, asker: Asker): System
    requires asker.actor in s.config.customers
  {
    if !HasRecord(s) then Goto(s, w, Idle)
    else
      var r := Stored(s);
      if r.identity != IdentityOf(s.config, asker.actor, r.identity.equipment) || r.hash != DecisionHash(r.identity, r.decision)
      then Goto(s, w, Idle)
      else if !r.decision.outcome.ReleaseReady? then Goto(s, w, Idle)
      else Goto(s, w, Checking(asker, r))
  }

  /** The record a final decision makes, on its way to the store. */
  function Conclude(s: System, w: nat, asker: Asker, snap: Record, d: Decision, pdf: Option<(Bytes, nat)>): System {
    var updated := Draft(s.config, snap.identity, snap.context, d, snap.events, true);
    if !Consistent(updated) then Goto(s, w, Idle)
    else Goto(s, w, Committing(asker, snap, updated, if pdf.None? then None else Some((pdf.value.0, pdf.value.1, s.clock))))
  }

  function NextEvaluate(s: System, w: nat, p: Position, d: Decision): System
    requires p.Checking?
  {
    if d.artifact.None? then Conclude(s, w, p.asker, p.snap, d, None)
    else if d.artifact != p.snap.decision.artifact then Conclude(s, w, p.asker, p.snap, Failed(d, ARTIFACT_CHANGED), None)
    else Goto(s, w, ReadingPdf(p.asker, p.snap, d))
  }

  function NextPdf(s: System, w: nat, p: Position, pdf: Option<Bytes>): System
    requires p.ReadingPdf?
  {
    if pdf.None? then Conclude(s, w, p.asker, p.snap, Failed(p.decision, ARTIFACT_UNAVAILABLE), None)
    else if !pdf.value.isPdf || p.decision.artifact.None? || Digest(pdf.value) != p.decision.artifact.value.sha
    then Conclude(s, w, p.asker, p.snap, Failed(p.decision, ARTIFACT_CHANGED), None)
    else Goto(s, w, Rechecking(p.asker, p.snap, pdf.value, s.clock))
  }

  /** Policy and ownership once more, after the bytes were read. */
  function NextRecheck(s: System, w: nat, p: Position, d: Decision): System
    requires p.Rechecking?
  {
    if d.artifact.Some? && d.artifact != p.snap.decision.artifact
    then Conclude(s, w, p.asker, p.snap, Failed(d, ARTIFACT_CHANGED), None)
    else Conclude(s, w, p.asker, p.snap, d, if d.outcome.ReleaseReady? then Some((p.bytes, p.read)) else None)
  }

  /** The read half of `commit`: the count and the prior events, the identity, and the case. */
  function NextCommit(s: System, w: nat, p: Position): System
    requires p.Committing?
  {
    var expected, r := |p.snap.events|, p.updated;
    if !Consistent(r) || |r.events| <= expected || |r.events| - expected > 97 || !HasRecord(s) then Goto(s, w, Idle)
    else
      var previous := Stored(s);
      if |previous.events| != expected || previous.events != r.events[..expected] then Goto(s, w, Idle)
      else if previous.identity != r.identity || previous.context != r.context then Goto(s, w, Idle)
      else if previous.opsCase.Some? && previous.opsCase != r.opsCase then Goto(s, w, Idle)
      else Goto(s, w, Storing(p.asker, previous, r, p.pdf, TagOf(s)))
  }

  /** The batch half; the bytes leave only after it. */
  function NextStore(s: System, w: nat, p: Position, acked: bool): System
    requires p.Storing?
  {
    var writes := CommitWrites(p.updated, |p.snap.events|, Some((p.snap, p.etag)));
    if !Admits(s.docs, writes) then Goto(s, w, Idle)
    else
      var freed := acked && p.updated.decision.outcome.ReleaseReady? && p.pdf.Some?;
      Goto(
        s.(docs := Batch(s.docs, writes),
           releases := s.releases
             + if freed then [Release(p.asker, p.pdf.value.0, |p.updated.events|, p.pdf.value.1, p.pdf.value.2)] else []),
        w, Idle)
  }
}
