/** What holds between any two points of a run of the Run controller, and the results a reader
    of the workflow is promised. */
module RunHistory {
  import opened Results
  import opened RunRecords
  import opened RunStore
  import opened RunController
  import opened RunSafety
  import opened Traces

  /** What a later snapshot may not undo. */
  ghost predicate Evolved(r: RunRecord, r': RunRecord) {
    && r.revision <= r'.revision && r'.runId == r.runId && r'.discount == r.discount
    && (r.approval.Some? ==>
      && r'.approval == r.approval && r'.envelope == r.envelope && r'.evidence == r.evidence && r'.proposal == r.proposal
      && r'.briefVersion == r.briefVersion && r'.briefHash == r.briefHash)
    && (Decided(r.state) ==> Decided(r'.state))
    && (r'.envelope != r.envelope ==> EnvelopeVersion(r) < EnvelopeVersion(r'))
    && r.briefVersion <= r'.briefVersion
    && (forall k :: k in r.receipts ==> k in r'.receipts && r'.receipts[k] == r.receipts[k])
    && (forall k :: k in r.status && r.status[k] == Completed ==> k in r'.status && r'.status[k] == Completed)
    && (r.state.ExecutionFailed? || r.state.Executed? || r.state.ClosedRejected? ==>
          r'.state == r.state && r'.status == r.status && r'.receipts == r.receipts)
  }

  ghost predicate Later(s: System, t: System) {
    && t.config == s.config
    && s.store.log <= t.store.log
    && s.calls <= t.calls
    && (forall v :: v in s.store.briefs ==> v in t.store.briefs && t.store.briefs[v] == s.store.briefs[v])
    && (s.store.record.Some? ==> t.store.record.Some? && Evolved(s.store.record.value, t.store.record.value))
  }

  /** A commit that wins from a snapshot its record evolved from. */
  lemma StoreIsLater(s: System, w: nat, snap: RunRecord, c: Change, done: Position, lost: Position)
    requires Inv(s) && SnapOk(s.store, snap) && c.expected == snap.revision
    requires Accepts(s.store, c) ==> Evolved(snap, c.record)
    ensures Later(s, Store(s, w, c, done, lost))
  {
    WinnerIsCurrent(s.store, snap, c);
  }

  /** Before a decision nothing is frozen yet but the versions. */
  lemma UndecidedEvolves(config: Config, snap: RunRecord, r': RunRecord)
    requires RecordOk(config, snap) && !Decided(snap.state) && r'.runId == snap.runId && r'.discount == snap.discount
    requires snap.revision <= r'.revision && snap.briefVersion <= r'.briefVersion
    requires r'.envelope == snap.envelope || EnvelopeVersion(snap) < EnvelopeVersion(r')
    ensures Evolved(snap, r')
  {
  }

  /** A commit attempt before any decision, from the snapshot a caller holds. */
  lemma UndecidedIsLater(s: System, w: nat, snap: RunRecord, c: Change, done: Position, lost: Position)
    requires Inv(s) && SnapOk(s.store, snap) && c.expected == snap.revision
    requires !Decided(snap.state) && c.record.runId == snap.runId && c.record.discount == snap.discount
    requires snap.revision <= c.record.revision && snap.briefVersion <= c.record.briefVersion
    requires c.record.envelope == snap.envelope || EnvelopeVersion(snap) < EnvelopeVersion(c.record)
    ensures Later(s, Store(s, w, c, done, lost))
  {
    if Accepts(s.store, c) {
      CurrentRecord(s, snap, c);
      UndecidedEvolves(s.config, snap, c.record);
    }
    StoreIsLater(s, w, snap, c, done, lost);
  }

  lemma AuditIsLater(s: System, w: nat, snap: RunRecord, kind: EventType, actor: nat)
    requires Inv(s) && SnapOk(s.store, snap)
    ensures Later(s, Store(s, w, Audit(snap, kind, actor), Idle, Idle))
  {
    if Accepts(s.store, Audit(snap, kind, actor)) {
      CurrentRecord(s, snap, Audit(snap, kind, actor));
    }
    StoreIsLater(s, w, snap, Audit(snap, kind, actor), Idle, Idle);
  }

  lemma CreateIsLater(s: System, w: nat, p: Position)
    requires Inv(s) && p.Creating?
    ensures Later(s, NextCreate(s, w, p))
  {
  }

  lemma BeginIsLater(s: System, w: nat, p: Position)
    requires Inv(s) && w in s.callers && s.callers[w] == p && p.Beginning?
    ensures Later(s, NextBegin(s, w, p))
  {
    hide Inv;
    Positioned(s, w);
    if CanTransition(p.snap.state, ContextAssembling) && !p.snap.state.ExecutionFailed? {
      UndecidedIsLater(s, w, p.snap, Draft(p.snap, AgentStarted, p.actor, Some(ContextAssembling), p.snap, p.command), Asking(p.actor), Idle);
    }
  }

  lemma EvidenceIsLater(s: System, w: nat, p: Position)
    requires Inv(s) && w in s.callers && s.callers[w] == p && p.HoldingEvidence?
    ensures Later(s, NextEvidence(s, w, p))
  {
    hide Inv;
    Positioned(s, w);
    var c := Draft(p.snap, EvidenceValidated, p.actor, Some(ContextAssembled),
                   p.snap.(proposal := Some(p.proposal), evidence := p.evidence), None);
    if CanTransition(p.snap.state, ContextAssembled) {
      UndecidedIsLater(s, w, p.snap, c, BuildingBrief(c.record, p.actor), Idle);
    }
  }

  lemma PolicyIsLater(s: System, w: nat, p: Position, a: Act)
    requires Inv(s) && w in s.callers && s.callers[w] == p && p.BuildingBrief? && a.PolicyStore?
    ensures Later(s, NextPolicy(s, w, p, a))
  {
    Positioned(s, w);
    var built := BuildBrief(p.snap, a.body, a.manifestId, a.file, a.mail);
    if a.factsOk && built.Ok? && CanTransition(p.snap.state, PolicyVerified) {
      assert built.value.brief.version == EnvelopeVersion(p.snap) + 1;
      hide Inv, BuildBrief;
      var c := Draft(p.snap, PolicyVerifiedEvent, p.actor, Some(PolicyVerified), p.snap.(envelope := Some(built.value)), None);
      UndecidedIsLater(s, w, p.snap, c, PointingAtBrief(c.record, p.actor), Idle);
    }
  }

  lemma BriefIsLater(s: System, w: nat, p: Position, acked: bool)
    requires Inv(s) && w in s.callers && s.callers[w] == p && p.PointingAtBrief?
    ensures Later(s, NextBrief(s, w, p, acked))
  {
    Positioned(s, w);
    if p.snap.envelope.Some? {
      var e := p.snap.envelope.value;
      var c := Draft(p.snap, BriefVersioned, p.actor, None, p.snap.(briefVersion := e.brief.version, briefHash := Some(e.hash)), None);
      if Accepts(s.store, c) {
        CurrentRecord(s, p.snap, c);
        hide Inv;
        UndecidedIsLater(s, w, p.snap, c, if acked then Idle else Failing(p.actor), Idle);
      }
    }
  }

  lemma HoldIsLater(s: System, w: nat, snap: RunRecord, kind: EventType, actor: nat)
    requires Inv(s) && SnapOk(s.store, snap)
    ensures Later(s, StoreTo(s, w, snap, EvidenceHold, Draft(snap, kind, actor, Some(EvidenceHold), snap, None), Idle, Idle))
  {
    if CanTransition(snap.state, EvidenceHold) {
      UndecidedIsLater(s, w, snap, Draft(snap, kind, actor, Some(EvidenceHold), snap, None), Idle, Idle);
    }
  }

  lemma RequestIsLater(s: System, w: nat, p: Position)
    requires Inv(s) && w in s.callers && s.callers[w] == p && p.Requesting?
    ensures Later(s, NextRequest(s, w, p))
  {
    hide Inv;
    Positioned(s, w);
    var c := Draft(p.snap, ApprovalRequested, p.actor, Some(AwaitingApproval), p.snap.(requestedAt := Some(p.now)), p.command);
    if CanTransition(p.snap.state, AwaitingApproval) {
      UndecidedIsLater(s, w, p.snap, c, SendingCard(c.record, p.actor), Idle);
    }
  }

  lemma CardIsLater(s: System, w: nat, p: Position)
    requires Inv(s) && w in s.callers && s.callers[w] == p && p.CardAnswered?
    ensures Later(s, NextCard(s, w, p))
  {
    hide Inv;
    Positioned(s, w);
    if p.delivered {
      AuditIsLater(s, w, p.snap, CardSent, p.actor);
    } else {
      HoldIsLater(s, w, p.snap, DeliveryFailed, p.actor);
    }
  }

  lemma DecideIsLater(s: System, w: nat, p: Position)
    requires Inv(s) && w in s.callers && s.callers[w] == p && p.Deciding?
    ensures Later(s, NextDecide(s, w, p))
  {
    hide Inv;
    Positioned(s, w);
    match p.verdict
    case Deny => AuditIsLater(s, w, p.snap, DecisionDenied, p.actor);
    case Duplicate => AuditIsLater(s, w, p.snap, DuplicateIgnored, p.actor);
    case Record(approval) =>
      var target := if approval.decision.Approve? then Approved else ClosedRejected;
      UndecidedIsLater(s, w, p.snap,
        Draft(p.snap, DecisionRecorded, p.actor, Some(target), p.snap.(approval := Some(approval)), None), Idle, Idle);
  }

  lemma ExecuteIsLater(s: System, w: nat, p: Position)
    requires Inv(s) && w in s.callers && s.callers[w] == p && p.Launching?
    ensures Later(s, NextExecute(s, w, p))
  {
    Positioned(s, w);
    if p.denied || p.snap.approval.None? || p.snap.envelope.None? {
      AuditIsLater(s, w, p.snap, ExecutionDenied, 0);
    } else {
      var actor := p.snap.approval.value.actor;
      var c := Draft(p.snap, ExecutionStarted, actor, Some(Executing), p.snap, None);
      if Accepts(s.store, c) {
        OnlyApprovedLaunches(s, p, c);
      }
      hide Inv;
      StoreIsLater(s, w, p.snap, c, Ready(p.snap.envelope.value.manifest.actions, 0, actor, c.record), Idle);
    }
  }

  /** A report adds a status and perhaps a receipt; it never overwrites a completed one. */
  lemma ReportEvolves(s: System, w: nat, p: Position, c: Change)
    requires Inv(s) && w in s.callers && s.callers[w] == p && p.Reporting? && s.store.record == Some(p.snap)
    requires p.report.Finished? || p.at < |p.plan|
    requires c == Draft(p.snap, ReportKind(p.report), p.actor, ReportTarget(p.report),
                        ReportedStatus(p.snap, p.plan, p.at, p.report), None)
    ensures Evolved(p.snap, c.record)
  {
    Paced(s, w);
    assert RecordOk(s.config, p.snap);
  }

  lemma ReportIsLater(s: System, w: nat, p: Position)
    requires Inv(s) && w in s.callers && s.callers[w] == p && p.Reporting?
    ensures Later(s, NextReport(s, w, p))
  {
    ReportPlace(s, w, p);
    hide Inv, Evolved, ReportedStatus, Later, SnapOk, Pacing, Accepts, Append;
    Paced(s, w);
    var c := Draft(p.snap, ReportKind(p.report), p.actor, ReportTarget(p.report), ReportedStatus(p.snap, p.plan, p.at, p.report), None);
    if Accepts(s.store, c) {
      CurrentRecord(s, p.snap, c);
      ReportEvolves(s, w, p, c);
      StoreIsLater(s, w, p.snap, c, AfterReport(p, c.record), Idle);
      ReportStores(s, w, p, c);
    } else {
      ReportRetries(s, w, p, c);
      LaterIgnoresCallers(s, w, Idle);
      LaterIgnoresCallers(s, w, Reloading(p.plan, p.at, p.actor, p.report, if p.tries <= 1 then 0 else p.tries - 1));
    }
  }

  lemma LaterIgnoresCallers(s: System, w: nat, p: Position)
    ensures Later(s, Goto(s, w, p))
  {
  }

  lemma PriceIsLater(s: System, w: nat, p: Position)
    requires Inv(s) && w in s.callers && s.callers[w] == p && p.Pricing?
    ensures Later(s, Store(s, w, Audit(p.snap, PricingCompleted, s.config.agent), Idle, Idle))
  {
    Positioned(s, w);
    AuditIsLater(s, w, p.snap, PricingCompleted, s.config.agent);
  }

  lemma WithholdIsLater(s: System, w: nat, p: Position)
    requires Inv(s) && w in s.callers && s.callers[w] == p && p.Withholding?
    ensures Later(s, StoreTo(s, w, p.snap, EvidenceHold, Draft(p.snap, EvidenceHeld, p.actor, Some(EvidenceHold), p.snap, None), Idle, Idle))
  {
    Positioned(s, w);
    HoldIsLater(s, w, p.snap, EvidenceHeld, p.actor);
  }

  lemma StoringIsLater(s: System, step: Step)
    requires Inv(s)
    requires step.act.DetectStore? || step.act.PriceStore? || step.act.BeginStore? || step.act.EvidenceStore?
          || step.act.PolicyStore? || step.act.BriefStore? || step.act.HoldStore? || step.act.RequestStore? || step.act.CardStore?
    ensures Later(s, Next(s, step))
  {
    var w, p := step.caller, At(s, step.caller);
    LaterReflexive(s);
    hide Inv, PositionOk, SnapOf, NextCreate, NextBegin, NextEvidence, NextPolicy, NextBrief, NextRequest, NextCard, Store, StoreTo, Draft, Audit, Later;
    match step.act
    case DetectStore => if p.Creating? { CreateIsLater(s, w, p); }
    case PriceStore => if p.Pricing? { PriceIsLater(s, w, p); }
    case BeginStore => if p.Beginning? { BeginIsLater(s, w, p); }
    case EvidenceStore => if p.HoldingEvidence? { EvidenceIsLater(s, w, p); }
    case PolicyStore(_, _, _, _, _) => if p.BuildingBrief? { PolicyIsLater(s, w, p, step.act); }
    case BriefStore(acked) => if p.PointingAtBrief? { BriefIsLater(s, w, p, acked); }
    case HoldStore => if p.Withholding? { WithholdIsLater(s, w, p); }
    case RequestStore => if p.Requesting? { RequestIsLater(s, w, p); }
    case CardStore => if p.CardAnswered? { CardIsLater(s, w, p); }
  }

  lemma NextIsLater(s: System, step: Step)
    requires Inv(s)
    ensures Later(s, Next(s, step))
  {
    var w, p, a := step.caller, At(s, step.caller), step.act;
    LaterReflexive(s);
    hide Inv, Later, NextDecide, NextExecute, NextReport;
    if a.DetectStore? || a.PriceStore? || a.BeginStore? || a.EvidenceStore? || a.PolicyStore? || a.BriefStore?
       || a.HoldStore? || a.RequestStore? || a.CardStore? {
      StoringIsLater(s, step);
    } else if a.DecideStore? {
      if p.Deciding? { DecideIsLater(s, w, p); }
    } else if a.ExecuteStore? {
      if p.Launching? { ExecuteIsLater(s, w, p); }
    } else if a.ExecuteReport? {
      if p.Reporting? { ReportIsLater(s, w, p); }
    } else {
      ReadingIsLater(s, step);
    }
  }

  /** Every other step leaves the store alone; only an invocation adds to the calls. */
  lemma ReadingIsLater(s: System, step: Step)
    requires !step.act.DetectStore? && !step.act.PriceStore? && !step.act.BeginStore? && !step.act.EvidenceStore?
    requires !step.act.PolicyStore? && !step.act.BriefStore? && !step.act.HoldStore? && !step.act.RequestStore?
    requires !step.act.CardStore? && !step.act.DecideStore? && !step.act.ExecuteStore? && !step.act.ExecuteReport?
    ensures Later(s, Next(s, step)) && Next(s, step).store == s.store
  {
  }

  lemma LaterReflexive(s: System)
    ensures Later(s, s)
  {
  }

  lemma LaterComposes(s: System, t: System, u: System)
    requires Later(s, t) && Later(t, u)
    ensures Later(s, u)
  {
  }

  // ---------------------------------------------------------------- the results

  lemma LaterAlong(s: System, steps: seq<Step>)
    requires Inv(s)
    ensures Inv(Run(Next, s, steps)) && Later(s, Run(Next, s, steps))
  {
    forall t: System, l: Step | Inv(t) ensures Inv(Next(t, l)) && Later(t, Next(t, l)) {
      NextKeepsInv(t, l);
      NextIsLater(t, l);
    }
    forall t: System, u: System, v: System | Later(t, u) && Later(u, v) ensures Later(t, v) {
      LaterComposes(t, u, v);
    }
    forall t: System ensures Later(t, t) {
      LaterReflexive(t);
    }
    RunRelates(Next, Inv, Later, s, steps);
  }

  /** Two points of one run: what came first is still there. */
  lemma HistoryOnlyGrows(config: Config, first: seq<Step>, second: seq<Step>)
    ensures Later(Run(Next, Initial(config), first), Run(Next, Initial(config), first + second))
  {
    RunsAreSafe(config, first);
    RunAppend(Next, Initial(config), first, second);
    LaterAlong(Run(Next, Initial(config), first), second);
  }

  /** The audit log is the state, in every reachable Run. */
  lemma AuditIsTheState(config: Config, steps: seq<Step>)
    ensures AuditTrail(Run(Next, Initial(config), steps).store)
    ensures CommandsOnce(Run(Next, Initial(config), steps).store.log)
  {
    RunsAreSafe(config, steps);
  }

  /** However callbacks repeat, race and crash, no idempotency key is handed to the external
      executor twice, and no more than one caller ever starts the execution. */
  lemma EffectsAtMostOnce(config: Config, steps: seq<Step>)
    ensures var t := Run(Next, Initial(config), steps);
      && (forall i, j :: 0 <= i < j < |t.calls| ==> t.calls[i].action.key != t.calls[j].action.key)
      && StartedOnce(t.store.log)
      && (forall w, v :: w in t.callers && v in t.callers && Active(t.callers[w]) && Active(t.callers[v]) ==> w == v)
  {
    RunsAreSafe(config, steps);
    var t := Run(Next, Initial(config), steps);
    forall i, j | 0 <= i < j < |t.calls| ensures t.calls[i].action.key != t.calls[j].action.key {
      var e := t.store.record.value.envelope.value;
      assert RecordOk(config, t.store.record.value);
      KeysDistinct(config.runId, e, i, j);
    }
  }

  /** A failed execution stays failed: it holds an unknown status, and no later point of the run
      has another state, status or receipt. */
  lemma FailureIsFinal(config: Config, first: seq<Step>, second: seq<Step>)
    requires var s := Run(Next, Initial(config), first); s.store.record.Some? && s.store.record.value.state.ExecutionFailed?
    ensures var r := Run(Next, Initial(config), first).store.record.value;
      var t := Run(Next, Initial(config), first + second);
      && (exists k :: k in r.status && r.status[k] == Unknown)
      && t.store.record.Some? && t.store.record.value.state.ExecutionFailed?
      && t.store.record.value.status == r.status && t.store.record.value.receipts == r.receipts
  {
    RunsAreSafe(config, first);
    HistoryOnlyGrows(config, first, second);
  }

  /** Once a decision is stored, the decision and everything it was taken on never change. */
  lemma DecisionFreezesThePackage(config: Config, first: seq<Step>, second: seq<Step>)
    requires var s := Run(Next, Initial(config), first); s.store.record.Some? && s.store.record.value.approval.Some?
    ensures var r := Run(Next, Initial(config), first).store.record.value;
      var t := Run(Next, Initial(config), first + second).store.record;
      && t.Some? && Decided(t.value.state)
      && t.value.approval == r.approval && t.value.envelope == r.envelope
      && t.value.evidence == r.evidence && t.value.proposal == r.proposal
      && t.value.briefVersion == r.briefVersion && t.value.briefHash == r.briefHash && t.value.discount == r.discount
  {
    HistoryOnlyGrows(config, first, second);
    RunsAreSafe(config, first);
  }

  /** What is approved is what executes: every action ever handed to the executor is in the
      manifest that the stored approval's hash is taken over, and the approval is one by the
      configured approver. */
  lemma ApprovedIsExecuted(config: Config, steps: seq<Step>, i: nat)
    requires i < |Run(Next, Initial(config), steps).calls|
    ensures var t := Run(Next, Initial(config), steps);
      && t.store.record.Some? && t.store.record.value.approval.Some?
      && var a := t.store.record.value.approval.value;
      && a.decision.Approve? && a.authorized && a.actor == config.approver
      && t.calls[i].action in a.hash.manifest.actions
      && t.calls[i].action.kind == t.calls[i].action.key.kind && t.calls[i].action.key.version == a.version
      && a.hash.brief.evidence == EvidenceDigest(t.store.record.value.evidence)
  {
    hide Inv, Next, Run;
    RunsAreSafe(config, steps);
    CallIsPlanned(Run(Next, Initial(config), steps), i);
  }

  lemma CallIsPlanned(s: System, i: nat)
    requires Inv(s) && i < |s.calls|
    ensures s.store.record.Some? && s.store.record.value.approval.Some?
    ensures var a := s.store.record.value.approval.value;
      && a.decision.Approve? && a.authorized && a.actor == s.config.approver
      && s.calls[i].action in a.hash.manifest.actions
      && s.calls[i].action.kind == s.calls[i].action.key.kind && s.calls[i].action.key.version == a.version
      && a.hash.brief.evidence == EvidenceDigest(s.store.record.value.evidence)
  {
    hide AuditTrail, CommandsOnce, PositionOk, BriefsOk, Pacing, StartedOnce;
    var r := s.store.record.value;
    assert RecordOk(s.config, r) && EnvelopeOk(s.config.runId, r.envelope.value);
    assert s.calls[i].action == r.envelope.value.manifest.actions[i];
  }

  /** Re-assembly never reuses a version, and a decided Run is never assembled again. */
  lemma VersionsOnlyRise(config: Config, first: seq<Step>, second: seq<Step>)
    requires Run(Next, Initial(config), first).store.record.Some?
    ensures var r := Run(Next, Initial(config), first).store.record.value;
      var t := Run(Next, Initial(config), first + second).store.record;
      && t.Some?
      && (t.value.envelope != r.envelope ==> r.approval.None? && EnvelopeVersion(r) < EnvelopeVersion(t.value))
      && r.briefVersion <= t.value.briefVersion
  {
    HistoryOnlyGrows(config, first, second);
  }

  /** Receipts are conserved: whatever audit commits come in between, a completed status and its
      receipt are never lost, and an executed Run holds a receipt for every action of its plan. */
  lemma ReceiptsAreConserved(config: Config, first: seq<Step>, second: seq<Step>)
    requires Run(Next, Initial(config), first).store.record.Some?
    ensures var r := Run(Next, Initial(config), first).store.record.value;
      var t := Run(Next, Initial(config), first + second).store.record;
      && t.Some?
      && (forall k :: k in r.receipts ==>
            k in t.value.receipts && t.value.receipts[k] == r.receipts[k] && k in t.value.status && t.value.status[k] == Completed)
      && (t.value.state.Executed? ==> t.value.envelope.Some?)
      && (t.value.state.Executed? ==>
            forall a :: a in t.value.envelope.value.manifest.actions ==>
              a.key in t.value.receipts && a.key in t.value.status && t.value.status[a.key] == Completed)
  {
    HistoryOnlyGrows(config, first, second);
    RunsAreSafe(config, first + second);
    RunsAreSafe(config, first);
  }
}
