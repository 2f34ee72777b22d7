/** The Run controller as a machine. Each caller of the controller advances by atomic steps: a
    read of the store and the computation on what was read, one commit, or one external call.
    Any number of callers interleave, and any of them may stop for good between two steps. */
module RunController {
  import opened Results
  import opened RunRecords
  import opened RunStore

  const APPROVAL_LIFETIME := 3600
  const ACCOUNT_MANAGER_LIMIT := 800
  const COMMIT_ATTEMPTS := 5

  // ---------------------------------------------------------------- state

  /** What `execution_event` is about to report on the action at the caller's position. */
  datatype Report = Starting | Done(receipt: nat) | Failed | Finished

  datatype Verdict = Deny | Duplicate | Record(approval: Approval)

  /** Where a caller stands: the snapshot it read and what it does next. */
  datatype Position =
    | Idle
    | Creating(draft: RunRecord, actor: nat)
    | Pricing(snap: RunRecord)
    | Replaying(snap: RunRecord, actor: nat, revision: nat, key: Option<nat>, assembling: bool)
    | Beginning(snap: RunRecord, actor: nat, command: Option<Command>)
    | Asking(actor: nat)
    | HoldingEvidence(snap: RunRecord, actor: nat, proposal: nat, evidence: seq<nat>)
    | BuildingBrief(snap: RunRecord, actor: nat)
    | PointingAtBrief(snap: RunRecord, actor: nat)
    | Failing(actor: nat)
    | Withholding(snap: RunRecord, actor: nat)
    | Requesting(snap: RunRecord, actor: nat, command: Option<Command>, now: int)
    | SendingCard(snap: RunRecord, actor: nat)
    | CardAnswered(snap: RunRecord, actor: nat, delivered: bool)
    | Deciding(snap: RunRecord, actor: nat, verdict: Verdict)
    | Launching(snap: RunRecord, denied: bool)
    | Ready(plan: seq<Action>, at: nat, actor: nat, local: RunRecord)
    | Reloading(plan: seq<Action>, at: nat, actor: nat, report: Report, tries: nat)
    | Reporting(plan: seq<Action>, at: nat, actor: nat, report: Report, tries: nat, snap: RunRecord)
    | Calling(plan: seq<Action>, at: nat, actor: nat)
    | InFlight(plan: seq<Action>, at: nat, actor: nat)

  datatype Call = Call(caller: nat, action: Action)

  datatype Config = Config(runId: nat, approver: nat, agent: nat)

  /** `calls` is everything that was ever handed to the external executor. */
  datatype System = System(config: Config, store: Ledger, callers: map<nat, Position>, calls: seq<Call>)

  function Initial(config: Config): System {
    System(config, EMPTY, map[], [])
  }

  function At(s: System, w: nat): Position {
    if w in s.callers then s.callers[w] else Idle
  }

  function Goto(s: System, w: nat, p: Position): System {
    s.(callers := s.callers[w := p])
  }

  // ---------------------------------------------------------------- local computations

  /** `Controller.record`: the next snapshot and its event. `updated` is the old snapshot with
      the fields the caller changes. */
  function Draft(prior: RunRecord, kind: EventType, actor: nat, target: Option<RunState>, updated: RunRecord, command: Option<Command>)
    : Change
  {
    var state := if target.Some? then target.value else prior.state;
    Change(
      updated.(state := state, revision := prior.revision + 1),
      Event(prior.revision + 1, kind, state, actor, command),
      prior.revision)
  }

  function Audit(prior: RunRecord, kind: EventType, actor: nat): Change {
    Draft(prior, kind, actor, None, prior, None)
  }

  datatype Verification = Sound | Denied | Unbound

  /** `Controller.verify_package`. The facts and the citations are compared with files the
      model does not hold, so the two answers are inputs. */
  function VerifyPackage(r: RunRecord, factsOk: bool, evidenceOk: bool): Verification {
    if !factsOk || r.proposal.None? || r.envelope.None? || !evidenceOk then Denied
    else
      var current := r.envelope.value;
      match ComputeBriefHash(current.brief, current.manifest)
      case Err(_) => Unbound
      case Ok(h) =>
        if h != current.hash || r.briefHash != Some(current.hash) || current.brief.version != r.briefVersion then Denied
        else if current.brief.evidence != EvidenceDigest(r.evidence) then Denied
        else Sound
  }

  predicate AuthorityCovers(discount: nat) {
    discount <= ACCOUNT_MANAGER_LIMIT
  }

  /** `Controller.decide` up to its commit; None where it raises without a commit. */
  function Judge(
      config: Config, r: RunRecord, actor: nat, hash: BriefHash, decision: Decision, version: Option<nat>, now: int,
      factsOk: bool, evidenceOk: bool): Option<Verdict>
  {
    if actor != config.approver then Some(Deny)
    else
      match VerifyPackage(r, factsOk, evidenceOk)
      case Unbound => None
      case Denied => Some(Deny)
      case Sound =>
        var current := r.envelope.value;
        if Ok(hash) != ComputeBriefHash(current.brief, current.manifest) || r.briefHash != Some(hash) then Some(Deny)
        else if version.Some? && version.value != current.brief.version then Some(Deny)
        else if r.approval.Some? then Some(Duplicate)
        else if !r.state.AwaitingApproval? then Some(Deny)
        else if r.requestedAt.None? || now - r.requestedAt.value > APPROVAL_LIFETIME then Some(Deny)
        else if !decision.Approve? && !decision.Reject? then Some(Deny)
        else if !AuthorityCovers(r.discount) then Some(Deny)
        else Some(Record(Approval(config.runId, current.brief.version, hash, actor, decision, true)))
  }

  /** The guards of `Controller.execute`; None where it raises without a commit. */
  function MayLaunch(config: Config, r: RunRecord, factsOk: bool, evidenceOk: bool): Option<bool> {
    if r.approval.None? || r.envelope.None? || !ApprovalMatchesCurrentVersion(r.approval.value, r.envelope.value) then Some(false)
    else if r.approval.value.actor != config.approver then Some(false)
    else
      match VerifyPackage(r, factsOk, evidenceOk)
      case Unbound => None
      case Denied => Some(false)
      case Sound =>
        if !AuthorityCovers(r.discount) then Some(false)
        else if !r.state.Approved? && !r.state.ExecutionFailed? then Some(false)
        else Some(forall k :: k in r.status ==> r.status[k] == Completed)
  }

  /** `Controller.command_replayed`: the first event of this kind that claimed the key. */
  function Claimed(log: seq<Event>, kind: EventType, key: nat): Option<Command> {
    if log == [] then None
    else if log[0].kind == kind && log[0].command.Some? && log[0].command.value.key == key then log[0].command
    else Claimed(log[1..], kind, key)
  }

  /** `Controller.build_brief`, with the wording and the fresh identifiers as inputs. */
  function BuildBrief(r: RunRecord, body: nat, manifestId: nat, file: nat, mail: nat): Result<VersionedBrief, BindingError> {
    var version := NextVersion(r.envelope);
    var actions := [
      Action(CreateFile, file, Key(CreateFile, version)),
      Action(SendMail, mail, Key(SendMail, version))];
    VersionBrief(
      Brief(r.runId, version, manifestId, body, EvidenceDigest(r.evidence)),
      Manifest(manifestId, r.runId, version, actions),
      r.envelope)
  }

  function ReportedStatus(r: RunRecord, plan: seq<Action>, at: nat, report: Report): RunRecord
    requires report.Finished? || at < |plan|
  {
    match report
    case Starting => r.(status := r.status[plan[at].key := Started])
    case Done(receipt) => r.(status := r.status[plan[at].key := Completed], receipts := r.receipts[plan[at].key := receipt])
    case Failed => r.(status := r.status[plan[at].key := Unknown])
    case Finished => r
  }

  function ReportKind(report: Report): EventType {
    match report
    case Starting => ActionStarted
    case Done(_) => ActionCompleted
    case Failed => ExecutionFailedEvent
    case Finished => ExecutionCompleted
  }

  function ReportTarget(report: Report): Option<RunState> {
    match report
    case Starting => None
    case Done(_) => None
    case Failed => Some(ExecutionFailed)
    case Finished => Some(Executed)
  }

  // ---------------------------------------------------------------- steps

  datatype Act =
    | DetectLoad(actor: nat, discount: nat, eligible: bool)
    | DetectStore
    | PriceLoad(factsOk: bool)
    | PriceStore
    | AssembleLoad(actor: nat, revision: nat, key: Option<nat>)
    | RequestLoad(actor: nat, revision: nat, key: Option<nat>)
    | ReplayCheck(packageOk: bool, now: int)
    | BeginStore
    | Proposed(proposal: nat, evidence: seq<nat>, valid: bool)
    | EvidenceStore
    | PolicyStore(body: nat, manifestId: nat, file: nat, mail: nat, factsOk: bool)
    | BriefStore(acked: bool)
    | Throw
    | HoldLoad
    | HoldStore
    | RequestStore
    | CardAnswer(delivered: bool)
    | CardStore
    | DecideLoad(actor: nat, hash: BriefHash, decision: Decision, version: Option<nat>, now: int, factsOk: bool, evidenceOk: bool)
    | DecideStore
    | ExecuteLoad(factsOk: bool, evidenceOk: bool)
    | ExecuteStore
    | ExecuteNext
    | ExecuteReload
    | ExecuteReport
    | Invoke
    | Answer(receipt: Option<nat>)
    | Crash

  datatype Step = Step(caller: nat, act: Act)

  /** One commit attempt. A commit that takes effect while its caller sees an error is this step
      followed by a crash; inside the guarded part of `assemble` it leads to a hold instead.
      `done` if it wins the compare-and-swap, `lost` if it conflicts. */
  function Store(s: System, w: nat, c: Change, done: Position, lost: Position): System {
    if Accepts(s.store, c) then Goto(s.(store := Append(s.store, c)), w, done) else Goto(s, w, lost)
  }

  /** As `Store`, for a commit with a target state: an unlisted transition raises instead. */
  function StoreTo(s: System, w: nat, prior: RunRecord, target: RunState, c: Change, done: Position, refused: Position): System {
    if CanTransition(prior.state, target) then Store(s, w, c, done, Idle) else Goto(s, w, refused)
  }

  function Next(s: System, step: Step): System {
    var w, p := step.caller, At(s, step.caller);
    match step.act
    case Crash => Goto(s, w, Idle)
    case DetectLoad(_, _, _) => if p.Idle? then NextDetect(s, w, step.act) else s
    case DetectStore => if p.Creating? then NextCreate(s, w, p) else s
    case PriceLoad(factsOk) =>
      if p.Idle? && s.store.record.Some? && s.store.record.value.state.ContextAssembling? && factsOk
      then Goto(s, w, Pricing(s.store.record.value)) else s
    case PriceStore =>
      if p.Pricing? then Store(s, w, Audit(p.snap, PricingCompleted, s.config.agent), Idle, Idle) else s
    case AssembleLoad(actor, revision, key) =>
      if p.Idle? && s.store.record.Some? && actor == s.config.approver
      then Goto(s, w, Replaying(s.store.record.value, actor, revision, key, true)) else s
    case RequestLoad(actor, revision, key) =>
      if p.Idle? && s.store.record.Some? && actor == s.config.approver
      then Goto(s, w, Replaying(s.store.record.value, actor, revision, key, false)) else s
    case ReplayCheck(packageOk, now) => if p.Replaying? then NextReplay(s, w, p, packageOk, now) else s
    case BeginStore => if p.Beginning? then NextBegin(s, w, p) else s
    case Proposed(proposal, evidence, valid) => if p.Asking? then NextProposed(s, w, p, proposal, evidence, valid) else s
    case EvidenceStore => if p.HoldingEvidence? then NextEvidence(s, w, p) else s
    case PolicyStore(_, _, _, _, _) => if p.BuildingBrief? then NextPolicy(s, w, p, step.act) else s
    case BriefStore(acked) => if p.PointingAtBrief? then NextBrief(s, w, p, acked) else s
    case Throw =>
      if p.Asking? || p.HoldingEvidence? || p.BuildingBrief? || p.PointingAtBrief? then Goto(s, w, Failing(p.actor)) else s
    case HoldLoad =>
      if p.Failing? && s.store.record.Some? then Goto(s, w, Withholding(s.store.record.value, p.actor)) else s
    case HoldStore =>
      if p.Withholding?
      then StoreTo(s, w, p.snap, EvidenceHold, Draft(p.snap, EvidenceHeld, p.actor, Some(EvidenceHold), p.snap, None), Idle, Idle)
      else s
    case RequestStore => if p.Requesting? then NextRequest(s, w, p) else s
    case CardAnswer(delivered) => if p.SendingCard? then Goto(s, w, CardAnswered(p.snap, p.actor, delivered)) else s
    case CardStore => if p.CardAnswered? then NextCard(s, w, p) else s
    case DecideLoad(_, _, _, _, _, _, _) => if p.Idle? && s.store.record.Some? then NextJudge(s, w, step.act) else s
    case DecideStore => if p.Deciding? then NextDecide(s, w, p) else s
    case ExecuteLoad(factsOk, evidenceOk) =>
      if p.Idle? && s.store.record.Some? then NextLaunch(s, w, factsOk, evidenceOk) else s
    case ExecuteStore => if p.Launching? then NextExecute(s, w, p) else s
    case ExecuteNext => if p.Ready? then NextAction(s, w, p) else s
    case ExecuteReload => if p.Reloading? then NextReload(s, w, p) else s
    case ExecuteReport => if p.Reporting? then NextReport(s, w, p) else s
    case Invoke => if p.Calling? then NextInvoke(s, w, p) else s
    case Answer(receipt) =>
      if p.InFlight?
      then Goto(s, w, Reloading(p.plan, p.at, p.actor, if receipt.Some? then Done(receipt.value) else Failed, COMMIT_ATTEMPTS))
      else s
  }

  function NextDetect(s: System, w: nat, a: Act): System
    requires a.DetectLoad?
  {
    if a.actor != s.config.approver || s.store.record.Some? || !a.eligible then s
    else Goto(s, w, Creating(
      RunRecord(s.config.runId, Detected, 0, None, 1, a.discount, None, None, [], None, map[], map[], None), a.actor))
  }

  function NextCreate(s: System, w: nat, p: Position): System
    requires p.Creating?
  {
    Store(s, w, Change(p.draft, Event(1, RunDetected, Detected, p.actor, None), 0), Idle, Idle)
  }

  function NextReplay(s: System, w: nat, p: Position, packageOk: bool, now: int): System
    requires p.Replaying?
  {
    var kind := if p.assembling then AgentStarted else ApprovalRequested;
    if p.key.Some? && Claimed(s.store.log, kind, p.key.value).Some? then Goto(s, w, Idle)
    else if p.snap.revision != p.revision then Goto(s, w, Idle)
    else
      var command := if p.key.Some? then Some(Command(p.key.value, p.revision)) else None;
      if p.assembling then Goto(s, w, Beginning(p.snap, p.actor, command))
      else if p.snap.envelope.None? || !VerifyPackage(p.snap, packageOk, packageOk).Sound? then Goto(s, w, Idle)
      else Goto(s, w, Requesting(p.snap, p.actor, command, now))
  }

  function NextBegin(s: System, w: nat, p: Position): System
    requires p.Beginning?
  {
    StoreTo(s, w, p.snap, ContextAssembling,
      Draft(p.snap, AgentStarted, p.actor, Some(ContextAssembling), p.snap, p.command), Asking(p.actor), Idle)
  }

  function NextProposed(s: System, w: nat, p: Position, proposal: nat, evidence: seq<nat>, valid: bool): System
    requires p.Asking?
  {
    if s.store.record.None? || !s.store.record.value.state.ContextAssembling? then Goto(s, w, Idle)
    else if !valid then Goto(s, w, Failing(p.actor))
    else Goto(s, w, HoldingEvidence(s.store.record.value, p.actor, proposal, evidence))
  }

  function NextEvidence(s: System, w: nat, p: Position): System
    requires p.HoldingEvidence?
  {
    var c := Draft(p.snap, EvidenceValidated, p.actor, Some(ContextAssembled),
                   p.snap.(proposal := Some(p.proposal), evidence := p.evidence), None);
    StoreTo(s, w, p.snap, ContextAssembled, c, BuildingBrief(c.record, p.actor), Failing(p.actor))
  }

  function NextPolicy(s: System, w: nat, p: Position, a: Act): System
    requires p.BuildingBrief? && a.PolicyStore?
  {
    var built := BuildBrief(p.snap, a.body, a.manifestId, a.file, a.mail);
    if !a.factsOk || built.Err? then Goto(s, w, Failing(p.actor))
    else
      var c := Draft(p.snap, PolicyVerifiedEvent, p.actor, Some(PolicyVerified), p.snap.(envelope := Some(built.value)), None);
      StoreTo(s, w, p.snap, PolicyVerified, c, PointingAtBrief(c.record, p.actor), Failing(p.actor))
  }

  function NextBrief(s: System, w: nat, p: Position, acked: bool): System
    requires p.PointingAtBrief?
  {
    if p.snap.envelope.None? then Goto(s, w, Failing(p.actor))
    else
      var e := p.snap.envelope.value;
      Store(s, w,
        Draft(p.snap, BriefVersioned, p.actor, None, p.snap.(briefVersion := e.brief.version, briefHash := Some(e.hash)), None),
        if acked then Idle else Failing(p.actor), Idle)
  }

  function NextRequest(s: System, w: nat, p: Position): System
    requires p.Requesting?
  {
    var c := Draft(p.snap, ApprovalRequested, p.actor, Some(AwaitingApproval), p.snap.(requestedAt := Some(p.now)), p.command);
    StoreTo(s, w, p.snap, AwaitingApproval, c, SendingCard(c.record, p.actor), Idle)
  }

  function NextCard(s: System, w: nat, p: Position): System
    requires p.CardAnswered?
  {
    if p.delivered then Store(s, w, Audit(p.snap, CardSent, p.actor), Idle, Idle)
    else StoreTo(s, w, p.snap, EvidenceHold, Draft(p.snap, DeliveryFailed, p.actor, Some(EvidenceHold), p.snap, None), Idle, Idle)
  }

  function NextJudge(s: System, w: nat, a: Act): System
    requires a.DecideLoad? && s.store.record.Some?
  {
    var r := s.store.record.value;
    match Judge(s.config, r, a.actor, a.hash, a.decision, a.version, a.now, a.factsOk, a.evidenceOk)
    case None => s
    case Some(v) => Goto(s, w, Deciding(r, a.actor, v))
  }

  function NextDecide(s: System, w: nat, p: Position): System
    requires p.Deciding?
  {
    match p.verdict
    case Deny => Store(s, w, Audit(p.snap, DecisionDenied, p.actor), Idle, Idle)
    case Duplicate => Store(s, w, Audit(p.snap, DuplicateIgnored, p.actor), Idle, Idle)
    case Record(approval) =>
      var target := if approval.decision.Approve? then Approved else ClosedRejected;
      StoreTo(s, w, p.snap, target,
        Draft(p.snap, DecisionRecorded, p.actor, Some(target), p.snap.(approval := Some(approval)), None), Idle, Idle)
  }

  function NextLaunch(s: System, w: nat, factsOk: bool, evidenceOk: bool): System
    requires s.store.record.Some?
  {
    var r := s.store.record.value;
    if r.state.Executed? then s
    else
      match MayLaunch(s.config, r, factsOk, evidenceOk)
      case None => s
      case Some(ok) => Goto(s, w, Launching(r, !ok))
  }

  function NextExecute(s: System, w: nat, p: Position): System
    requires p.Launching?
  {
    if p.denied || p.snap.approval.None? || p.snap.envelope.None?
    then Store(s, w, Audit(p.snap, ExecutionDenied, 0), Idle, Idle)
    else
      var actor := p.snap.approval.value.actor;
      var c := Draft(p.snap, ExecutionStarted, actor, Some(Executing), p.snap, None);
      StoreTo(s, w, p.snap, Executing, c, Ready(p.snap.envelope.value.manifest.actions, 0, actor, c.record), Idle)
  }

  /** The head of the loop over the manifest. */
  function NextAction(s: System, w: nat, p: Position): System
    requires p.Ready?
  {
    if p.at >= |p.plan| then Goto(s, w, Reloading(p.plan, p.at, p.actor, Finished, COMMIT_ATTEMPTS))
    else if p.plan[p.at].key in p.local.status && p.local.status[p.plan[p.at].key] == Completed
    then Goto(s, w, Ready(p.plan, p.at + 1, p.actor, p.local))
    else Goto(s, w, Reloading(p.plan, p.at, p.actor, Starting, COMMIT_ATTEMPTS))
  }

  function NextReload(s: System, w: nat, p: Position): System
    requires p.Reloading?
  {
    if s.store.record.None? || !s.store.record.value.state.Executing? || p.tries == 0 then Goto(s, w, Idle)
    else Goto(s, w, Reporting(p.plan, p.at, p.actor, p.report, p.tries, s.store.record.value))
  }

  /** One attempt of `execution_event`; a lost race reads again while attempts remain. */
  function NextReport(s: System, w: nat, p: Position): System
    requires p.Reporting?
  {
    if !p.report.Finished? && p.at >= |p.plan| then Goto(s, w, Idle)
    else
      var target := ReportTarget(p.report);
      var c := Draft(p.snap, ReportKind(p.report), p.actor, target, ReportedStatus(p.snap, p.plan, p.at, p.report), None);
      if target.Some? && !CanTransition(p.snap.state, target.value) then Goto(s, w, Idle)
      else
        Store(s, w, c,
          match p.report
          case Starting => Calling(p.plan, p.at, p.actor)
          case Done(_) => Ready(p.plan, p.at + 1, p.actor, c.record)
          case Failed => Idle
          case Finished => Idle,
          if p.tries <= 1 then Idle else Reloading(p.plan, p.at, p.actor, p.report, p.tries - 1))
  }

  function NextInvoke(s: System, w: nat, p: Position): System
    requires p.Calling?
  {
    if p.at >= |p.plan| then Goto(s, w, Idle)
    else Goto(s.(calls := s.calls + [Call(w, p.plan[p.at])]), w, InFlight(p.plan, p.at, p.actor))
  }
}
