/** The renewal controller, the staff review, the executor and the downloads as one machine over
    the document store, the invoice book and the artifact storage. Callers advance by atomic
    steps, and any of them may stop for good between two. */
module CoverageRenewal {
  import opened Results
  import opened CoverageRecords
  import opened DocumentStore
  import Invoices = InvoiceAllocator

  const COVERAGE_MONTHS := 12

  // ---------------------------------------------------------------- stores

  datatype Kind = Certificate | InvoicePdf

  /** A rendered document: everything its bytes depend on. Rendering is deterministic. */
  datatype Bytes = Bytes(kind: Kind, package: Package, issuedAt: int, invoice: Invoices.Invoice, customerName: nat)

  datatype Digest = Digest(bytes: Bytes)

  /** The execution receipt. */
  datatype Payload = Payload(invoice: Invoices.Invoice, certificate: Digest, invoicePdf: Digest)

  datatype BlobId = BlobId(request: nat, kind: Kind, invoice: Invoices.Invoice)

  datatype DocId = RecordId(request: nat) | EventId(request: nat, revision: nat) | ReceiptId(request: nat)

  datatype Doc = RecordDoc(record: Record) | EventDoc(state: RenewalState) | ReceiptDoc(payload: Payload)

  type Store = Partition<DocId, Doc>

  // ---------------------------------------------------------------- callers

  /** What a reviewer sends: the decision, and the package as it was displayed. */
  datatype Command = Command(verdict: Verdict, version: nat, hash: PackageHash, note: Option<nat>, reason: Option<nat>)

  /** Where a caller stands. `Committing` holds a record on its way to the store, and where its
      caller goes on when it is there. */
  datatype Position =
    | Idle
    | Beginning(q: nat, driving: bool)
    | Investigating(q: nat)
    | Holding(q: nat)
    | Verifying(q: nat)
    | Drafting(q: nat, package: Package)
    | Presenting(q: nat)
    | OperationsDeciding(q: nat, actor: ObjectId, command: Command)
    | Escalating(q: nat)
    | ManagerDeciding(q: nat, actor: ObjectId, command: Command)
    | Authorizing(q: nat, thenExecute: bool)
    | Launching(q: nat)
    | Checking(record: Record)
    | Allocating(record: Record)
    | Rendering(record: Record, invoice: Invoices.Invoice)
    | StoringCertificate(q: nat, payload: Payload)
    | StoringInvoice(q: nat, payload: Payload)
    | Issuing(q: nat, payload: Payload)
    | Completing(q: nat, payload: Payload)
    | Returned(q: nat, payload: Payload)
    | Failing(q: nat)
    | Retrying(q: nat)
    | Admitted(q: nat, customer: nat, kind: Kind)
    | LookingUp(q: nat, customer: nat, kind: Kind, completed: bool)
    | Fetching(q: nat, customer: nat, kind: Kind, payload: Payload)
    | Served(q: nat, customer: nat, kind: Kind, bytes: Bytes)
    | Corrupted(q: nat, customer: nat, kind: Kind)
    | Committing(prior: Record, updated: Record, etag: nat, done: Position)

  /** `redriven`: whether anyone besides the customer's `start` begins, holds or verifies an
      investigation. */
  datatype Config = Config(operations: ObjectId, manager: ObjectId, redriven: bool)

  /** A decision as it was built: what the reviewer restated, and what was recorded. */
  datatype Built = Built(q: nat, id: nat, restated: PackageHash, recorded: PackageHash)

  /** `claims` says for which request each handed-out number was allocated. */
  datatype System = System(
    config: Config, docs: Store, book: Invoices.Ledger, blobs: map<BlobId, Bytes>,
    claims: map<Invoices.Invoice, nat>, built: seq<Built>, callers: map<nat, Position>)

  function Initial(config: Config): System {
    System(config, Partition(map[], 0), Invoices.NEW_LEDGER, map[], map[], [], map[])
  }

  function At(s: System, w: nat): Position {
    if w in s.callers then s.callers[w] else Idle
  }

  function Goto(s: System, w: nat, p: Position): System {
    s.(callers := s.callers[w := p])
  }

  predicate HasRecord(s: System, q: nat) {
    RecordId(q) in s.docs.docs && s.docs.docs[RecordId(q)].body.RecordDoc?
  }

  function Rec(s: System, q: nat): Record
    requires HasRecord(s, q)
  {
    s.docs.docs[RecordId(q)].body.record
  }

  function TagOf(s: System, q: nat): nat
    requires HasRecord(s, q)
  {
    s.docs.docs[RecordId(q)].etag
  }

  predicate HasReceipt(s: System, q: nat) {
    ReceiptId(q) in s.docs.docs && s.docs.docs[ReceiptId(q)].body.ReceiptDoc?
  }

  function ReceiptOf(s: System, q: nat): Payload
    requires HasReceipt(s, q)
  {
    s.docs.docs[ReceiptId(q)].body.payload
  }

  function DigestOf(payload: Payload, kind: Kind): Digest {
    if kind.Certificate? then payload.certificate else payload.invoicePdf
  }

  // ---------------------------------------------------------------- steps

  datatype Finding = Ineligible | Drifted | Eligible(content: Option<nat>)

  datatype Act =
    | Start(q: nat, customer: nat, equipment: nat, acked: bool)
    | DriveBegin(q: nat)
    | DriveHold(q: nat)
    | DriveVerify(q: nat)
    | LoadBegin
    | AgentAnswers(ok: bool)
    | LoadHold
    | LoadVerify(finding: Finding)
    | LoadDraft
    | LoadPresent
    | Review(q: nat, actor: ObjectId, command: Command, byManager: bool)
    | LoadOperations(now: int, id: nat)
    | LoadEscalate
    | LoadManager(now: int, year: int, id: nat)
    | Authorize(q: nat, thenExecute: bool)
    | LoadAuthorize
    | Execute(q: nat)
    | LoadExecute
    | ReadReceipt
    | AllocateStep(act: Invoices.Act)
    | Collect
    | Reserve(invoice: Invoices.Invoice, acked: bool)
    | Render(first: Option<nat>, second: Option<nat>)
    | WriteBlob(ok: bool, acked: bool)
    | Issue(acked: bool)
    | LoadComplete
    | LoadFail
    | Retry(q: nat)
    | LoadRetry
    | Download(q: nat, customer: nat, kind: Kind)
    | LoadDownload
    | ReadIssued
    | ReadBlob
    | Commit(acked: bool)
    | Return
    | Crash

  datatype Step = Step(caller: nat, act: Act)

  function Next(s: System, step: Step): System {
    var w, p := step.caller, At(s, step.caller);
    match step.act
    case Start(q, customer, equipment, acked) => if p.Idle? then NextStart(s, w, q, customer, equipment, acked) else s
    case DriveBegin(q) => if p.Idle? && s.config.redriven then Goto(s, w, Beginning(q, false)) else s
    case DriveHold(q) => if p.Idle? && s.config.redriven then Goto(s, w, Holding(q)) else s
    case DriveVerify(q) => if p.Idle? && s.config.redriven then Goto(s, w, Verifying(q)) else s
    case LoadBegin => if p.Beginning? then NextBegin(s, w, p) else s
    case AgentAnswers(ok) => if p.Investigating? then Goto(s, w, if ok then Verifying(p.q) else Holding(p.q)) else s
    case LoadHold => if p.Holding? then Moving(s, w, p.q, EvidenceHold, Idle) else s
    case LoadVerify(finding) => if p.Verifying? then NextVerify(s, w, p, finding) else s
    case LoadDraft => if p.Drafting? then NextDraft(s, w, p) else s
    case LoadPresent => if p.Presenting? then Moving(s, w, p.q, AwaitingOperations, Idle) else s
    case Review(q, actor, command, byManager) => if p.Idle? then NextReview(s, w, q, actor, command, byManager) else s
    case LoadOperations(now, id) => if p.OperationsDeciding? then NextOperations(s, w, p, now, id) else s
    case LoadEscalate => if p.Escalating? then Moving(s, w, p.q, AwaitingManager, Idle) else s
    case LoadManager(now, year, id) => if p.ManagerDeciding? then NextManager(s, w, p, now, year, id) else s
    case Authorize(q, thenExecute) => if p.Idle? then Goto(s, w, Authorizing(q, thenExecute)) else s
    case LoadAuthorize => if p.Authorizing? then NextAuthorize(s, w, p) else s
    case Execute(q) => if p.Idle? then Goto(s, w, Launching(q)) else s
    case LoadExecute => if p.Launching? then NextExecute(s, w, p) else s
    case ReadReceipt => if p.Checking? then NextReceipt(s, w, p) else s
    case AllocateStep(act) => if p.Allocating? && (act.Read? || act.Open? || act.Take?) then Booked(s, w, act) else s
    case Collect => if p.Allocating? then NextCollect(s, w, p) else s
    case Reserve(invoice, acked) =>
      if p.Idle? then Booked(Booked(s, w, Invoices.Reserve(invoice, acked)), w, Invoices.Collect) else s
    case Render(first, second) => if p.Rendering? then NextRender(s, w, p, first, second) else s
    case WriteBlob(ok, acked) => if p.StoringCertificate? || p.StoringInvoice? then NextWrite(s, w, p, ok, acked) else s
    case Issue(acked) => if p.Issuing? then NextIssue(s, w, p, acked) else s
    case LoadComplete => if p.Completing? then NextComplete(s, w, p) else s
    case LoadFail => if p.Failing? then NextFail(s, w, p) else s
    case Retry(q) => if p.Idle? then Goto(s, w, Retrying(q)) else s
    case LoadRetry => if p.Retrying? then NextRetry(s, w, p) else s
    case Download(q, customer, kind) => if p.Idle? then NextDownload(s, w, q, customer, kind) else s
    case LoadDownload =>
      if !p.Admitted? then s
      else if HasRecord(s, p.q) then Goto(s, w, LookingUp(p.q, p.customer, p.kind, Rec(s, p.q).state.Completed?))
      else Goto(s, w, Idle)
    case ReadIssued =>
      if !p.LookingUp? then s
      else if HasReceipt(s, p.q) && p.completed then Goto(s, w, Fetching(p.q, p.customer, p.kind, ReceiptOf(s, p.q)))
      else Goto(s, w, Idle)
    case ReadBlob => if p.Fetching? then NextFetch(s, w, p) else s
    case Commit(acked) => if p.Committing? then NextCommit(s, w, p, acked) else s
    case Return => if p.Returned? || p.Served? || p.Corrupted? then Goto(s, w, Idle) else s
    case Crash => Booked(Goto(s, w, Idle), w, Invoices.Crash)
  }

  function Booked(s: System, w: nat, act: Invoices.Act): System {
    s.(book := Invoices.Next(s.book, Invoices.Step(w, act)))
  }

  // ---------------------------------------------------------------- the controller

  function CreateWrites(r: Record): Writes<DocId, Doc> {
    map[RecordId(r.request) := Create(RecordDoc(r)), EventId(r.request, 0) := Create(EventDoc(r.state))]
  }

  /** `start`: only the caller that created the request goes on to drive it. */
  function NextStart(s: System, w: nat, q: nat, customer: nat, equipment: nat, acked: bool): System {
    var r := Record(q, 0, CustomerRequested, customer, equipment, None, None, None, None);
    if !Admits(s.docs, CreateWrites(r)) then s
    else Goto(s.(docs := Batch(s.docs, CreateWrites(r))), w, if acked then Beginning(q, true) else Idle)
  }

  /** `_advance` up to its commit: the target must be listed. */
  function Advance(s: System, w: nat, prior: Record, etag: nat, target: RenewalState, updated: Record, done: Position): System {
    if !CanTransition(prior.state, target) then Goto(s, w, Idle)
    else Goto(s, w, Committing(prior, updated.(state := target, revision := prior.revision + 1), etag, done))
  }

  /** A read and an advance that changes nothing but the state. */
  function Moving(s: System, w: nat, q: nat, target: RenewalState, done: Position): System {
    if !HasRecord(s, q) then Goto(s, w, Idle)
    else Advance(s, w, Rec(s, q), TagOf(s, q), target, Rec(s, q), done)
  }

  function NextBegin(s: System, w: nat, p: Position): System
    requires p.Beginning?
  {
    Moving(s, w, p.q, EvidenceAssembling, if p.driving then Investigating(p.q) else Idle)
  }

  /** `verify_eligibility`: the eligibility rules and the price check are inputs. */
  function NextVerify(s: System, w: nat, p: Position, finding: Finding): System
    requires p.Verifying?
  {
    match finding
    case Ineligible => Moving(s, w, p.q, EvidenceHold, Idle)
    case Drifted => Moving(s, w, p.q, EvidenceHold, Idle)
    case Eligible(content) =>
      if !HasRecord(s, p.q) then Goto(s, w, Idle)
      else
        var r := Rec(s, p.q);
        Moving(s, w, p.q, EligibilityVerified,
          if content.None? then Idle
          else Drafting(p.q, Package(p.q, 1, r.customer, r.equipment, COVERAGE_MONTHS, content.value)))
  }

  function NextDraft(s: System, w: nat, p: Position): System
    requires p.Drafting?
  {
    if !HasRecord(s, p.q) then Goto(s, w, Idle)
    else
      var r := Rec(s, p.q);
      Advance(s, w, r, TagOf(s, p.q), PackageDrafted, r.(package := Some(p.package), hash := Some(PackageHash(p.package))), Presenting(p.q))
  }

  // ---------------------------------------------------------------- the two-person review

  /** A decision that is already recorded for this person, verdict and package. */
  predicate Recorded(r: Record, actor: ObjectId, command: Command, byManager: bool) {
    if byManager then
      r.manager.Some? && SamePerson(r.manager.value.actor, actor) && r.manager.value.verdict == command.verdict && r.manager.value.hash == command.hash
    else
      r.operations.Some? && SamePerson(r.operations.value.actor, actor) && r.operations.value.verdict == command.verdict && r.operations.value.hash == command.hash
  }

  /** `_bind`: the reviewer restates the stored package. */
  predicate Restates(r: Record, command: Command) {
    r.package.Some? && r.hash.Some? && r.package.value.version == command.version && r.hash.value == command.hash
  }

  function NextReview(s: System, w: nat, q: nat, actor: ObjectId, command: Command, byManager: bool): System {
    if !HasRecord(s, q) || Recorded(Rec(s, q), actor, command, byManager) || !Restates(Rec(s, q), command) then s
    else if byManager then Goto(s, w, ManagerDeciding(q, actor, command))
    else Goto(s, w, OperationsDeciding(q, actor, command))
  }

  /** `operations_decide`, on a record read anew. */
  function NextOperations(s: System, w: nat, p: Position, now: int, id: nat): System
    requires p.OperationsDeciding?
  {
    if !HasRecord(s, p.q) then Goto(s, w, Idle)
    else
      var r, c := Rec(s, p.q), p.command;
      if !SamePerson(p.actor, s.config.operations) || !r.state.AwaitingOperations? || r.package.None? || r.hash.None? || !Reasoned(c.verdict, c.reason)
      then Goto(s, w, Idle)
      else
        var d := OperationsDecision(id, p.q, r.package.value.version, r.hash.value, p.actor, c.verdict, c.note, c.reason, now);
        Advance(
          s.(built := s.built + [Built(p.q, id, c.hash, d.hash)]), w, r, TagOf(s, p.q),
          if c.verdict.Approve? then OperationsApproved else OperationsRejected,
          r.(operations := Some(d)), if c.verdict.Approve? then Escalating(p.q) else Idle)
  }

  /** `manager_decide`, on a record read anew. */
  function NextManager(s: System, w: nat, p: Position, now: int, year: int, id: nat): System
    requires p.ManagerDeciding?
  {
    if !HasRecord(s, p.q) then Goto(s, w, Idle)
    else
      var r, c := Rec(s, p.q), p.command;
      if !SamePerson(p.actor, s.config.manager) || !r.state.AwaitingManager? || r.package.None? || r.hash.None? || r.operations.None?
      then Goto(s, w, Idle)
      else if SamePerson(p.actor, r.operations.value.actor) || !Reasoned(c.verdict, c.reason) then Goto(s, w, Idle)
      else
        var o := r.operations.value;
        var d := ManagerDecision(id, p.q, r.package.value.version, r.hash.value, p.actor, c.verdict, o.id, o.note, c.reason, now, year);
        Advance(
          s.(built := s.built + [Built(p.q, id, c.hash, d.hash)]), w, r, TagOf(s, p.q),
          if c.verdict.Approve? then ManagerApproved else ManagerRejected, r.(manager := Some(d)), Idle)
  }

  function NextAuthorize(s: System, w: nat, p: Position): System
    requires p.Authorizing?
  {
    if !HasRecord(s, p.q) || !Rec(s, p.q).state.ManagerApproved? || !Authorized(Rec(s, p.q)) then Goto(s, w, Idle)
    else Moving(s, w, p.q, Executing, if p.thenExecute then Launching(p.q) else Idle)
  }

  // ---------------------------------------------------------------- the executor

  function NextExecute(s: System, w: nat, p: Position): System
    requires p.Launching?
  {
    if !HasRecord(s, p.q) || !Rec(s, p.q).state.Executing? || !Authorized(Rec(s, p.q)) then Goto(s, w, Idle)
    else Goto(s, w, Checking(Rec(s, p.q)))
  }

  /** A receipt that is there is the outcome; otherwise a number is allocated in the year of the
      Manager's approval. */
  function NextReceipt(s: System, w: nat, p: Position): System
    requires p.Checking?
  {
    var q := p.record.request;
    if HasReceipt(s, q) then Goto(s, w, Returned(q, ReceiptOf(s, q)))
    else if p.record.manager.None? then Goto(s, w, Idle)
    else Goto(Booked(s, w, Invoices.Start(p.record.manager.value.year)), w, Allocating(p.record))
  }

  function NextCollect(s: System, w: nat, p: Position): System
    requires p.Allocating?
  {
    var held := Invoices.At(s.book, w);
    if held.Done? then
      Goto(Booked(s, w, Invoices.Collect).(claims := s.claims[held.invoice := p.record.request]), w, Rendering(p.record, held.invoice))
    else if held.GaveUp? then
      Goto(Booked(s, w, Invoices.Collect), w, if held.failure.ConflictRaised? then Idle else Failing(p.record.request))
    else s
  }

  /** Both documents, from the approved package, the approval's time and the number; the
      customer's name is looked up now, once for each of them. */
  function NextRender(s: System, w: nat, p: Position, first: Option<nat>, second: Option<nat>): System
    requires p.Rendering?
  {
    var r, n := p.record, p.invoice;
    if first.None? || second.None? || r.package.None? || r.manager.None? then Goto(s, w, Failing(r.request))
    else
      Goto(s, w, StoringCertificate(r.request, Payload(n,
        Digest(Bytes(Certificate, r.package.value, r.manager.value.at, n, first.value)),
        Digest(Bytes(InvoicePdf, r.package.value, r.manager.value.at, n, second.value)))))
  }

  /** A create-only write: a blob of that name that is already there counts as written. */
  function NextWrite(s: System, w: nat, p: Position, ok: bool, acked: bool): System
    requires p.StoringCertificate? || p.StoringInvoice?
  {
    var kind := if p.StoringCertificate? then Certificate else InvoicePdf;
    var id := BlobId(p.q, kind, p.payload.invoice);
    if !ok then Goto(s, w, Failing(p.q))
    else
      var t := if id in s.blobs then s else s.(blobs := s.blobs[id := DigestOf(p.payload, kind).bytes]);
      Goto(t, w, if !acked then Failing(p.q) else if kind.Certificate? then StoringInvoice(p.q, p.payload) else Issuing(p.q, p.payload))
  }

  function ReceiptWrites(q: nat, payload: Payload): Writes<DocId, Doc> {
    map[ReceiptId(q) := Create(ReceiptDoc(payload))]
  }

  function NextIssue(s: System, w: nat, p: Position, acked: bool): System
    requires p.Issuing?
  {
    if !Admits(s.docs, ReceiptWrites(p.q, p.payload)) then Goto(s, w, Idle)
    else Goto(s.(docs := Batch(s.docs, ReceiptWrites(p.q, p.payload))), w, if acked then Completing(p.q, p.payload) else Failing(p.q))
  }

  /** The completing commit does not ask the state table. */
  function NextComplete(s: System, w: nat, p: Position): System
    requires p.Completing?
  {
    if !HasRecord(s, p.q) then Goto(s, w, Idle)
    else
      var r := Rec(s, p.q);
      Goto(s, w, Committing(r, r.(state := Completed, revision := r.revision + 1), TagOf(s, p.q), Returned(p.q, p.payload)))
  }

  function NextFail(s: System, w: nat, p: Position): System
    requires p.Failing?
  {
    if !HasRecord(s, p.q) || !Rec(s, p.q).state.Executing? then Goto(s, w, Idle)
    else
      var r := Rec(s, p.q);
      Goto(s, w, Committing(r, r.(state := ExecutionFailed, revision := r.revision + 1), TagOf(s, p.q), Idle))
  }

  function NextRetry(s: System, w: nat, p: Position): System
    requires p.Retrying?
  {
    if !HasRecord(s, p.q) || !Rec(s, p.q).state.ExecutionFailed? || !Authorized(Rec(s, p.q)) then Goto(s, w, Idle)
    else
      var r := Rec(s, p.q);
      Goto(s, w, Committing(r, r.(state := Executing, revision := r.revision + 1), TagOf(s, p.q), Launching(p.q)))
  }

  /** The customer's `download`, before the executor's: a renewal of someone else looks like an
      unknown one. */
  function NextDownload(s: System, w: nat, q: nat, customer: nat, kind: Kind): System {
    if !HasRecord(s, q) || Rec(s, q).customer != customer || !Rec(s, q).state.Completed? then s
    else Goto(s, w, Admitted(q, customer, kind))
  }

  /** The download's own hash check. */
  function NextFetch(s: System, w: nat, p: Position): System
    requires p.Fetching?
  {
    var id := BlobId(p.q, p.kind, p.payload.invoice);
    if id in s.blobs && Digest(s.blobs[id]) == DigestOf(p.payload, p.kind) then Goto(s, w, Served(p.q, p.customer, p.kind, s.blobs[id]))
    else Goto(s, w, Corrupted(p.q, p.customer, p.kind))
  }

  // ---------------------------------------------------------------- the commit

  function CommitWrites(r: Record, etag: nat): Writes<DocId, Doc> {
    map[RecordId(r.request) := Replace(RecordDoc(r), etag), EventId(r.request, r.revision) := Create(EventDoc(r.state))]
  }

  function NextCommit(s: System, w: nat, p: Position, acked: bool): System
    requires p.Committing?
  {
    if !Consistent(p.updated) || !Admits(s.docs, CommitWrites(p.updated, p.etag)) then Goto(s, w, Idle)
    else Goto(s.(docs := Batch(s.docs, CommitWrites(p.updated, p.etag))), w, if acked then p.done else Idle)
  }
}
