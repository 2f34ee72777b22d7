/** What one audit event says about the step that wrote it: who acted, in which state, and for
    which command. */
module RunAudit {
  import opened Results
  import opened RunRecords
  import opened RunStore
  import opened RunController
  import Safety = RunSafety
  import opened Traces

  /** An event of the log. The approver commands and decides, the agent prices, and an execution
      runs in the name of the approver; a command names the revision its event follows. */
  predicate Attributed(config: Config, e: Event) {
    && (e.command.Some? ==> (e.kind.AgentStarted? || e.kind.ApprovalRequested?) && e.command.value.revision + 1 == e.sequence)
    && (match e.kind
        case RunDetected => e.state.Detected?
        case PricingCompleted => e.state.ContextAssembling?
        case AgentStarted => e.state.ContextAssembling?
        case EvidenceValidated => e.state.ContextAssembled?
        case PolicyVerifiedEvent => e.state.PolicyVerified?
        case BriefVersioned => e.state.PolicyVerified?
        case EvidenceHeld => e.state.EvidenceHold?
        case ApprovalRequested => e.state.AwaitingApproval?
        case CardSent => e.state.AwaitingApproval?
        case DeliveryFailed => e.state.EvidenceHold?
        case DecisionRecorded => e.state.Approved? || e.state.ClosedRejected?
        case ExecutionStarted => e.state.Executing?
        case ActionStarted => e.state.Executing?
        case ActionCompleted => e.state.Executing?
        case ExecutionFailedEvent => e.state.ExecutionFailed?
        case ExecutionCompleted => e.state.Executed?
        case _ => true)
    && (match e.kind
        case PricingCompleted => e.actor == config.agent
        case DecisionDenied => true
        case ExecutionDenied => true
        case _ => e.actor == config.approver)
  }

  ghost predicate AllAttributed(config: Config, log: seq<Event>) {
    forall i :: 0 <= i < |log| ==> Attributed(config, log[i])
  }

  /** Where a caller stands decides what its next event may say. */
  predicate Placed(config: Config, p: Position) {
    match p
    case Idle => true
    case Creating(draft, actor) => draft.state.Detected? && actor == config.approver
    case Pricing(snap) => snap.state.ContextAssembling?
    case Replaying(_, actor, _, _, _) => actor == config.approver
    case Beginning(snap, actor, command) => actor == config.approver && (command.Some? ==> command.value.revision == snap.revision)
    case Asking(actor) => actor == config.approver
    case HoldingEvidence(_, actor, _, _) => actor == config.approver
    case BuildingBrief(_, actor) => actor == config.approver
    case PointingAtBrief(snap, actor) => actor == config.approver && snap.state.PolicyVerified?
    case Failing(actor) => actor == config.approver
    case Withholding(_, actor) => actor == config.approver
    case Requesting(snap, actor, command, _) => actor == config.approver && (command.Some? ==> command.value.revision == snap.revision)
    case SendingCard(snap, actor) => actor == config.approver && snap.state.AwaitingApproval?
    case CardAnswered(snap, actor, _) => actor == config.approver && snap.state.AwaitingApproval?
    case Deciding(_, actor, verdict) => verdict.Deny? || actor == config.approver
    case Launching(_, _) => true
    case Ready(_, _, actor, _) => actor == config.approver
    case Reloading(_, _, actor, _, _) => actor == config.approver
    case Reporting(_, _, actor, _, _, snap) => actor == config.approver && snap.state.Executing?
    case Calling(_, _, actor) => actor == config.approver
    case InFlight(_, _, actor) => actor == config.approver
  }

  ghost predicate Accounted(s: System) {
    && AllAttributed(s.config, s.store.log)
    && forall w :: w in s.callers ==> Placed(s.config, s.callers[w])
  }

  // ---------------------------------------------------------------- steps

  lemma GotoAccounts(s: System, w: nat, p: Position)
    requires Accounted(s) && Placed(s.config, p)
    ensures Accounted(Goto(s, w, p))
  {
    hide Placed, Attributed;
  }

  lemma StoreAccounts(s: System, w: nat, c: Change, done: Position, lost: Position)
    requires Accounted(s) && Placed(s.config, lost)
    requires Accepts(s.store, c) ==> Attributed(s.config, c.event) && Placed(s.config, done)
    ensures Accounted(Store(s, w, c, done, lost))
  {
    hide Placed, Attributed;
  }

  lemma PlacedAt(s: System, w: nat)
    requires Accounted(s)
    ensures Placed(s.config, At(s, w))
  {
  }

  lemma AssemblingAccounts(s: System, w: nat, p: Position, a: Act)
    requires Accounted(s) && Placed(s.config, p)
    ensures p.Creating? ==> Accounted(NextCreate(s, w, p))
    ensures p.Beginning? ==> Accounted(NextBegin(s, w, p))
    ensures p.HoldingEvidence? ==> Accounted(NextEvidence(s, w, p))
    ensures p.BuildingBrief? && a.PolicyStore? ==> Accounted(NextPolicy(s, w, p, a))
    ensures p.PointingAtBrief? && a.BriefStore? ==> Accounted(NextBrief(s, w, p, a.acked))
  {
    hide Accounted, Accepts, Append, BuildBrief, CanTransition;
    forall q: Position | Placed(s.config, q) ensures Accounted(Goto(s, w, q)) { GotoAccounts(s, w, q); }
    forall c: Change, done: Position, lost: Position | Placed(s.config, lost) && Attributed(s.config, c.event) && Placed(s.config, done)
      ensures Accounted(Store(s, w, c, done, lost)) { StoreAccounts(s, w, c, done, lost); }
  }

  lemma AskingAccounts(s: System, w: nat, p: Position, a: Act)
    requires Accounted(s) && Placed(s.config, p)
    ensures p.Replaying? && a.ReplayCheck? ==> Accounted(NextReplay(s, w, p, a.packageOk, a.now))
    ensures p.Asking? && a.Proposed? ==> Accounted(NextProposed(s, w, p, a.proposal, a.evidence, a.valid))
    ensures p.Requesting? ==> Accounted(NextRequest(s, w, p))
    ensures p.CardAnswered? ==> Accounted(NextCard(s, w, p))
  {
    hide Accounted, Accepts, Append, CanTransition, Claimed, VerifyPackage;
    forall q: Position | Placed(s.config, q) ensures Accounted(Goto(s, w, q)) { GotoAccounts(s, w, q); }
    forall c: Change, done: Position, lost: Position | Placed(s.config, lost) && Attributed(s.config, c.event) && Placed(s.config, done)
      ensures Accounted(Store(s, w, c, done, lost)) { StoreAccounts(s, w, c, done, lost); }
  }

  /** A verdict other than a denial is for the configured approver. */
  lemma JudgedIsApprover(
      config: Config, r: RunRecord, actor: nat, hash: BriefHash, decision: Decision, version: Option<nat>, now: int, factsOk: bool, evidenceOk: bool)
    ensures var v := Judge(config, r, actor, hash, decision, version, now, factsOk, evidenceOk);
      v.Some? && !v.value.Deny? ==> actor == config.approver
  {
    hide VerifyPackage, ComputeBriefHash;
  }

  lemma DecidingAccounts(s: System, w: nat, p: Position, a: Act)
    requires Accounted(s) && Placed(s.config, p)
    ensures a.DecideLoad? && s.store.record.Some? ==> Accounted(NextJudge(s, w, a))
    ensures p.Deciding? ==> Accounted(NextDecide(s, w, p))
    ensures a.ExecuteLoad? && s.store.record.Some? ==> Accounted(NextLaunch(s, w, a.factsOk, a.evidenceOk))
  {
    hide Accounted, Accepts, Append, CanTransition, Judge, MayLaunch;
    if a.DecideLoad? && s.store.record.Some? {
      JudgedIsApprover(s.config, s.store.record.value, a.actor, a.hash, a.decision, a.version, a.now, a.factsOk, a.evidenceOk);
    }
    forall q: Position | Placed(s.config, q) ensures Accounted(Goto(s, w, q)) { GotoAccounts(s, w, q); }
    forall c: Change, done: Position, lost: Position | Placed(s.config, lost) && Attributed(s.config, c.event) && Placed(s.config, done)
      ensures Accounted(Store(s, w, c, done, lost)) { StoreAccounts(s, w, c, done, lost); }
  }

  /** The approval that an execution starts from is by the configured approver. */
  lemma StartedByApprover(s: System, snap: RunRecord)
    requires Safety.Inv(s) && s.store.record == Some(snap) && snap.approval.Some?
    ensures snap.approval.value.actor == s.config.approver
  {
    hide Safety.AuditTrail, Safety.CommandsOnce, Safety.PositionOk, Safety.BriefsOk, Safety.Execution;
  }

  lemma LaunchingAccounts(s: System, w: nat, p: Position)
    requires Safety.Inv(s) && Accounted(s) && w in s.callers && s.callers[w] == p && p.Launching?
    ensures Accounted(NextExecute(s, w, p))
  {
    hide Safety.Inv, Accounted, Append, CanTransition;
    LaunchesCurrent(s, w);
    GotoAccounts(s, w, Idle);
    if p.denied || p.snap.approval.None? || p.snap.envelope.None? {
      StoreAccounts(s, w, Audit(p.snap, ExecutionDenied, 0), Idle, Idle);
    } else {
      var actor := p.snap.approval.value.actor;
      var c := Draft(p.snap, ExecutionStarted, actor, Some(Executing), p.snap, None);
      if Accepts(s.store, c) {
        StartedByApprover(s, p.snap);
      }
      StoreAccounts(s, w, c, Ready(p.snap.envelope.value.manifest.actions, 0, actor, c.record), Idle);
    }
  }

  lemma LaunchesCurrent(s: System, w: nat)
    requires Safety.Inv(s) && w in s.callers && s.callers[w].Launching?
    ensures var snap := s.callers[w].snap; Revision(s.store) == snap.revision ==> s.store.record == Some(snap)
  {
    hide Safety.AuditTrail, Safety.CommandsOnce, Safety.BriefsOk, Safety.Execution, Safety.RecordOk;
    assert Safety.PositionOk(s, s.callers[w]);
  }

  lemma ExecutingAccounts(s: System, w: nat, p: Position)
    requires Accounted(s) && Placed(s.config, p)
    ensures p.Ready? ==> Accounted(NextAction(s, w, p))
    ensures p.Reloading? ==> Accounted(NextReload(s, w, p))
    ensures p.Reporting? ==> Accounted(NextReport(s, w, p))
    ensures p.Calling? ==> Accounted(NextInvoke(s, w, p))
  {
    hide Accounted, Accepts, Append, CanTransition;
    if p.Calling? {
      CallsAccount(s, w, p);
    }
    forall q: Position | Placed(s.config, q) ensures Accounted(Goto(s, w, q)) { GotoAccounts(s, w, q); }
    forall c: Change, done: Position, lost: Position | Placed(s.config, lost) && Attributed(s.config, c.event) && Placed(s.config, done)
      ensures Accounted(Store(s, w, c, done, lost)) { StoreAccounts(s, w, c, done, lost); }
  }

  lemma CallsAccount(s: System, w: nat, p: Position)
    requires Accounted(s) && Placed(s.config, p) && p.Calling?
    ensures Accounted(NextInvoke(s, w, p))
  {
    hide Attributed;
  }

  /** A price and a hold. */
  lemma AuditAccounts(s: System, w: nat, p: Position)
    requires Accounted(s) && Placed(s.config, p)
    ensures p.Pricing? ==> Accounted(Store(s, w, Audit(p.snap, PricingCompleted, s.config.agent), Idle, Idle))
    ensures p.Withholding? ==>
      Accounted(StoreTo(s, w, p.snap, EvidenceHold, Draft(p.snap, EvidenceHeld, p.actor, Some(EvidenceHold), p.snap, None), Idle, Idle))
  {
    hide Accounted, Accepts, Append, CanTransition;
    GotoAccounts(s, w, Idle);
    forall c: Change | Attributed(s.config, c.event) ensures Accounted(Store(s, w, c, Idle, Idle)) { StoreAccounts(s, w, c, Idle, Idle); }
  }

  lemma NextAccounts(s: System, step: Step)
    requires Safety.Inv(s) && Accounted(s)
    ensures Accounted(Next(s, step))
  {
    hide Safety.Inv, Accounted, Attributed, Store, StoreTo, Draft,
      NextCreate, NextReplay, NextBegin, NextProposed, NextEvidence, NextPolicy, NextBrief, NextRequest, NextCard, NextJudge, NextDecide,
      NextLaunch, NextExecute, NextAction, NextReload, NextReport, NextInvoke;
    var w, p := step.caller, At(s, step.caller);
    PlacedAt(s, w);
    AuditAccounts(s, w, p);
    AssemblingAccounts(s, w, p, step.act);
    AskingAccounts(s, w, p, step.act);
    DecidingAccounts(s, w, p, step.act);
    ExecutingAccounts(s, w, p);
    if p.Launching? {
      LaunchingAccounts(s, w, p);
    }
    forall q: Position | Placed(s.config, q) ensures Accounted(Goto(s, w, q)) { GotoAccounts(s, w, q); }
  }

  // ---------------------------------------------------------------- the results

  lemma {:induction false} AccountedAlong(s: System, steps: seq<Step>)
    requires Safety.Inv(s) && Accounted(s)
    ensures Safety.Inv(Run(Next, s, steps)) && Accounted(Run(Next, s, steps)) && Run(Next, s, steps).config == s.config
  {
    hide Safety.Inv, Accounted, Next;
    if steps != [] {
      var t := Run(Next, s, steps[..|steps| - 1]);
      AccountedAlong(s, steps[..|steps| - 1]);
      Safety.NextKeepsInv(t, steps[|steps| - 1]);
      Safety.NextKeepsConfig(t, steps[|steps| - 1]);
      NextAccounts(t, steps[|steps| - 1]);
    }
  }

  /** In every run, whoever calls and however calls interleave, every event of the log was written
      by the configured approver, or by the agent where it prices; only denials name anyone else.
      Its kind fixes the state it was written in, and a command's event directly follows the
      revision the command was sent for. */
  lemma EveryEventIsAttributed(config: Config, steps: seq<Step>)
    ensures AllAttributed(config, Run(Next, Initial(config), steps).store.log)
  {
    hide Next, Attributed;
    Safety.RunsAreSafe(config, []);
    AccountedAlong(Initial(config), steps);
  }
}
