/** Service coverage renewals: the state table, the frozen package, the two decisions that bind to
    it, and the record one commit stores. */
module CoverageRecords {
  import opened Results

  // ---------------------------------------------------------------- state table

  datatype RenewalState =
    | CustomerRequested | EvidenceAssembling | EligibilityVerified | PackageDrafted | AwaitingOperations
    | OperationsApproved | AwaitingManager | ManagerApproved | Executing | Completed
    | EvidenceHold | OperationsRejected | ManagerRejected | ExecutionFailed | Cancelled

  function BaseTargets(current: RenewalState): set<RenewalState> {
    match current
    case CustomerRequested => {EvidenceAssembling}
    case EvidenceAssembling => {EligibilityVerified, EvidenceHold}
    case EligibilityVerified => {PackageDrafted, EvidenceHold}
    case PackageDrafted => {AwaitingOperations, EvidenceHold}
    case AwaitingOperations => {OperationsApproved, OperationsRejected}
    case OperationsApproved => {AwaitingManager}
    case AwaitingManager => {ManagerApproved, ManagerRejected}
    case ManagerApproved => {Executing}
    case Executing => {Completed, ExecutionFailed}
    case ExecutionFailed => {Executing}
    case EvidenceHold => {EvidenceAssembling}
    case _ => {}
  }

  predicate Cancellable(s: RenewalState) {
    s.CustomerRequested? || s.EvidenceAssembling? || s.EligibilityVerified? || s.PackageDrafted? || s.EvidenceHold?
  }

  predicate CanTransition(current: RenewalState, target: RenewalState) {
    target in BaseTargets(current) || (Cancellable(current) && target.Cancelled?)
  }

  /** The states of a renewal whose package is frozen for review. */
  predicate Presented(s: RenewalState) {
    s.AwaitingOperations? || OperationsDecided(s)
  }

  predicate OperationsDecided(s: RenewalState) {
    s.OperationsApproved? || s.OperationsRejected? || s.AwaitingManager? || ManagerDecided(s)
  }

  predicate ManagerDecided(s: RenewalState) {
    s.ManagerApproved? || s.ManagerRejected? || Launched(s)
  }

  /** The states that follow the final gate. */
  predicate Launched(s: RenewalState) {
    s.Executing? || s.ExecutionFailed? || s.Completed?
  }

  // ---------------------------------------------------------------- package and decisions

  /** A directory identity: two spellings are one person when they fold to the same text. */
  datatype ObjectId = ObjectId(folded: nat, spelling: nat)

  predicate SamePerson(a: ObjectId, b: ObjectId) {
    a.folded == b.folded
  }

  datatype Package = Package(request: nat, version: nat, customer: nat, equipment: nat, months: nat, content: nat)

  /** A digest is a free constructor: equal hashes are equal packages. */
  datatype PackageHash = PackageHash(package: Package)

  datatype Verdict = Approve | Reject

  datatype OperationsDecision = OperationsDecision(
    id: nat, request: nat, version: nat, hash: PackageHash, actor: ObjectId, verdict: Verdict,
    note: Option<nat>, reason: Option<nat>, at: int)

  datatype ManagerDecision = ManagerDecision(
    id: nat, request: nat, version: nat, hash: PackageHash, actor: ObjectId, verdict: Verdict,
    operationsId: nat, operationsNote: Option<nat>, reason: Option<nat>, at: int, year: int)

  /** Both decision contracts: a rejection has a reason, an approval has none. */
  predicate Reasoned(verdict: Verdict, reason: Option<nat>) {
    verdict.Reject? <==> reason.Some?
  }

  /** `approvals_authorize_execution`. */
  predicate ApprovalsAuthorize(p: Package, h: PackageHash, o: OperationsDecision, m: ManagerDecision) {
    && o.verdict.Approve? && m.verdict.Approve?
    && o.request == p.request && m.request == p.request
    && o.version == p.version && m.version == p.version
    && o.hash == h && m.hash == h
    && m.operationsId == o.id
    && m.operationsNote == o.note
    && !SamePerson(o.actor, m.actor)
    && m.at >= o.at
  }

  datatype Record = Record(
    request: nat, revision: nat, state: RenewalState, customer: nat, equipment: nat,
    package: Option<Package>, hash: Option<PackageHash>,
    operations: Option<OperationsDecision>, manager: Option<ManagerDecision>)

  /** The record contract. */
  predicate Consistent(r: Record) {
    && (r.package.None? <==> r.hash.None?)
    && (r.package.None? ==> r.operations.None? && r.manager.None?)
    && (r.manager.Some? ==> r.operations.Some?)
  }

  /** The final gate: both approvals stand behind the recomputed hash of the stored package. */
  predicate Authorized(r: Record) {
    && r.package.Some? && r.hash.Some? && r.operations.Some? && r.manager.Some?
    && r.hash.value == PackageHash(r.package.value)
    && ApprovalsAuthorize(r.package.value, r.hash.value, r.operations.value, r.manager.value)
  }

  /** Two approvals name one package: no other package, whatever its record, passes the gate
      with them. */
  lemma ApprovalsNameOnePackage(r: Record, other: Record)
    requires Authorized(r) && Authorized(other)
    requires other.operations == r.operations || other.manager == r.manager
    ensures other.package == r.package && other.hash == r.hash
  {
  }
}
