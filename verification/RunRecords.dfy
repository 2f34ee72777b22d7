/** Renewal Runs: the state table, the versioned approval envelope and its hash, and the
    snapshot and audit event that one commit stores together. */
module RunRecords {
  import opened Results

  // ---------------------------------------------------------------- state table

  datatype RunState =
    | Detected | ContextAssembling | ContextAssembled | PolicyVerified | EvidenceHold | AwaitingApproval
    | Escalated | Approved | Executing | ExecutionFailed | Executed | ClosedRejected

  const PRE_APPROVAL_STATES :=
    {Detected, ContextAssembling, ContextAssembled, PolicyVerified, AwaitingApproval, Escalated}

  function BaseTargets(current: RunState): set<RunState> {
    match current
    case Detected => {ContextAssembling}
    case ContextAssembling => {ContextAssembled}
    case ContextAssembled => {PolicyVerified}
    case PolicyVerified => {AwaitingApproval}
    case EvidenceHold => {ContextAssembling}
    case AwaitingApproval => {Approved, Escalated, ClosedRejected}
    case Escalated => {AwaitingApproval, ClosedRejected}
    case Approved => {Executing}
    case Executing => {Executed, ExecutionFailed}
    case ExecutionFailed => {Executing}
    case Executed => {}
    case ClosedRejected => {}
  }

  function AllowedTargets(current: RunState): set<RunState> {
    BaseTargets(current) + (if current in PRE_APPROVAL_STATES then {EvidenceHold} else {})
  }

  predicate CanTransition(current: RunState, target: RunState) {
    target in AllowedTargets(current)
  }

  /** The states that follow a recorded decision. */
  predicate Decided(s: RunState) {
    s.Approved? || s.ClosedRejected? || Launched(s)
  }

  /** The states that follow the start of an execution. */
  predicate Launched(s: RunState) {
    s.Executing? || s.ExecutionFailed? || s.Executed?
  }

  // ---------------------------------------------------------------- envelope and hash

  datatype ActionKind = CreateFile | SendMail

  /** The idempotency key of an action: its kind and the brief version it was planned for. */
  datatype Key = Key(kind: ActionKind, version: nat)

  datatype Action = Action(kind: ActionKind, content: nat, key: Key)

  /** `evidence` is the digest of the evidence the brief was built on. Digests are free
      constructors: equal digests have equal preimages. */
  datatype Brief = Brief(runId: nat, version: nat, manifestId: nat, body: nat, evidence: EvidenceDigest)

  datatype EvidenceDigest = EvidenceDigest(items: seq<nat>)

  datatype Manifest = Manifest(manifestId: nat, runId: nat, version: nat, actions: seq<Action>)

  datatype BriefHash = BriefHash(brief: Brief, manifest: Manifest)

  datatype VersionedBrief = VersionedBrief(brief: Brief, manifest: Manifest, hash: BriefHash)

  datatype BindingError = BindingError

  function ComputeBriefHash(brief: Brief, manifest: Manifest): Result<BriefHash, BindingError> {
    if brief.runId != manifest.runId || brief.version != manifest.version || brief.manifestId != manifest.manifestId
    then Err(BindingError)
    else Ok(BriefHash(brief, manifest))
  }

  /** The next immutable version; the incoming version numbers are replaced. */
  function VersionBrief(brief: Brief, manifest: Manifest, previous: Option<VersionedBrief>)
    : Result<VersionedBrief, BindingError>
  {
    var next := NextVersion(previous);
    if previous.Some? && previous.value.brief.runId != brief.runId then Err(BindingError)
    else
      var b, m := brief.(version := next), manifest.(version := next);
      match ComputeBriefHash(b, m)
      case Err(e) => Err(e)
      case Ok(h) => Ok(VersionedBrief(b, m, h))
  }

  function NextVersion(previous: Option<VersionedBrief>): nat {
    if previous.None? then 1 else previous.value.brief.version + 1
  }

  /** An envelope whose parts refer to each other and whose hash is its own. */
  ghost predicate Bound(e: VersionedBrief) {
    ComputeBriefHash(e.brief, e.manifest) == Ok(e.hash)
  }

  /** Two bound envelopes with one hash are one envelope: an approval that carries a hash
      names the brief and every action of the manifest. */
  lemma HashNamesEnvelope(e: VersionedBrief, f: VersionedBrief)
    requires Bound(e) && Bound(f) && e.hash == f.hash
    ensures e == f && e.manifest.actions == f.manifest.actions
  {
  }

  // ---------------------------------------------------------------- decisions

  datatype Decision = Approve | Reject | Edit | Escalate

  datatype Approval = Approval(
    runId: nat, version: nat, hash: BriefHash, actor: nat, decision: Decision, authorized: bool)

  predicate ApprovalMatchesCurrentVersion(approval: Approval, current: VersionedBrief) {
    && approval.decision == Approve
    && approval.authorized
    && approval.runId == current.brief.runId
    && approval.version == current.brief.version
    && approval.hash == current.hash
  }

  // ---------------------------------------------------------------- snapshot and event

  datatype Status = Started | Completed | Unknown

  datatype RunRecord = RunRecord(
    runId: nat,
    state: RunState,
    briefVersion: nat,
    briefHash: Option<BriefHash>,
    revision: nat,
    discount: nat,              // the discount among the facts, in hundredths of a percent
    envelope: Option<VersionedBrief>,
    proposal: Option<nat>,
    evidence: seq<nat>,
    approval: Option<Approval>,
    status: map<Key, Status>,
    receipts: map<Key, nat>,
    requestedAt: Option<int>)

  datatype EventType =
    | RunDetected | PricingCompleted | AgentStarted | EvidenceValidated | PolicyVerifiedEvent | BriefVersioned
    | EvidenceHeld | ApprovalRequested | CardSent | DeliveryFailed | DecisionRecorded | DuplicateIgnored
    | DecisionDenied | ExecutionDenied | ExecutionStarted | ActionStarted | ActionCompleted
    | ExecutionFailedEvent | ExecutionCompleted

  /** The command a caller claimed: its key and the revision it was sent for. */
  datatype Command = Command(key: nat, revision: nat)

  datatype Event = Event(sequence: nat, kind: EventType, state: RunState, actor: nat, command: Option<Command>)
}
