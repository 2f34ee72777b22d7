/** What every run of the Run controller keeps, for all interleavings of its callers and for
    crashes between any two steps. */
module RunSafety {
  import opened Results
  import opened RunRecords
  import opened RunStore
  import opened RunController
  import opened Traces

  // ---------------------------------------------------------------- the invariant

  /** The audit log is the state: sequence numbers are one to the revision, the last event
      carries the snapshot's state, and the states of neighbours are equal or an allowed
      transition. */
  ghost predicate AuditTrail(m: Ledger) {
    && (m.record.None? <==> m.log == [])
    && |m.log| == Revision(m)
    && (forall i :: 0 <= i < |m.log| ==> m.log[i].sequence == i + 1)
    && (m.record.Some? ==> m.log[|m.log| - 1].state == m.record.value.state && m.log[0].state == Detected)
    && (forall i :: 0 < i < |m.log| ==>
          m.log[i].state == m.log[i - 1].state || CanTransition(m.log[i - 1].state, m.log[i].state))
  }

  /** A command key is claimed at most once for each kind of command. */
  ghost predicate CommandsOnce(log: seq<Event>) {
    forall i, j :: 0 <= i < j < |log| && log[i].kind == log[j].kind && log[i].command.Some? && log[j].command.Some?
      ==> log[i].command.value.key != log[j].command.value.key
  }

  ghost predicate StartedOnce(log: seq<Event>) {
    forall i, j :: 0 <= i < j < |log| ==> !(log[i].kind.ExecutionStarted? && log[j].kind.ExecutionStarted?)
  }

  predicate EnvelopeOk(runId: nat, e: VersionedBrief) {
    && ComputeBriefHash(e.brief, e.manifest) == Ok(e.hash)
    && e.brief.runId == runId
    && e.brief.version > 0
    && |e.manifest.actions| == 2
    && e.manifest.actions[0].kind.CreateFile? && e.manifest.actions[0].key == Key(CreateFile, e.brief.version)
    && e.manifest.actions[1].kind.SendMail? && e.manifest.actions[1].key == Key(SendMail, e.brief.version)
  }

  function EnvelopeVersion(r: RunRecord): nat {
    if r.envelope.None? then 0 else r.envelope.value.brief.version
  }

  ghost predicate RecordOk(config: Config, r: RunRecord) {
    && r.runId == config.runId
    && r.revision > 0
    && (r.envelope.Some? ==> EnvelopeOk(config.runId, r.envelope.value))
    && r.briefVersion <= EnvelopeVersion(r)
    && (r.approval.Some? <==> Decided(r.state))
    && (r.approval.Some? ==> ApprovalOk(config, r))
    && (!Launched(r.state) ==> r.status == map[] && r.receipts == map[])
    && (forall k :: k in r.receipts ==> k in r.status && r.status[k] == Completed)
  }

  /** What a stored decision is bound to. */
  ghost predicate ApprovalOk(config: Config, r: RunRecord)
    requires r.approval.Some?
  {
    var a := r.approval.value;
    && r.envelope.Some?
    && a.runId == config.runId
    && a.actor == config.approver
    && a.authorized
    && a.hash == r.envelope.value.hash && r.briefHash == Some(a.hash)
    && a.version == r.envelope.value.brief.version && r.briefVersion == a.version
    && r.envelope.value.brief.evidence == EvidenceDigest(r.evidence)
    && r.proposal.Some?
    && (a.decision.Approve? <==> !r.state.ClosedRejected?)
    && (a.decision.Approve? || a.decision.Reject?)
  }

  /** A snapshot a caller holds is a past state, and the current one if the revision is still
      the current one. */
  ghost predicate SnapOk(m: Ledger, snap: RunRecord) {
    && 0 < snap.revision <= Revision(m)
    && (snap.revision == Revision(m) ==> m.record == Some(snap))
  }

  function SnapOf(p: Position): Option<RunRecord> {
    match p
    case Pricing(snap) => Some(snap)
    case Replaying(snap, _, _, _, _) => Some(snap)
    case Beginning(snap, _, _) => Some(snap)
    case HoldingEvidence(snap, _, _, _) => Some(snap)
    case BuildingBrief(snap, _) => Some(snap)
    case PointingAtBrief(snap, _) => Some(snap)
    case Withholding(snap, _) => Some(snap)
    case Requesting(snap, _, _, _) => Some(snap)
    case SendingCard(snap, _) => Some(snap)
    case CardAnswered(snap, _, _) => Some(snap)
    case Deciding(snap, _, _) => Some(snap)
    case Launching(snap, _) => Some(snap)
    case Reporting(_, _, _, _, _, snap) => Some(snap)
    case _ => None
  }

  /** No event up to this revision claims the command. */
  ghost predicate Unclaimed(log: seq<Event>, upTo: nat, kind: EventType, command: Option<Command>) {
    command.Some? ==>
      forall i :: 0 <= i < |log| && i < upTo && log[i].kind == kind && log[i].command.Some?
        ==> log[i].command.value.key != command.value.key
  }

  /** What a caller's position says about the snapshot it carries. */
  ghost predicate PositionOk(s: System, p: Position) {
    && (SnapOf(p).Some? ==> SnapOk(s.store, SnapOf(p).value))
    && match p
       case Creating(draft, _) => RecordOk(s.config, draft) && draft.revision == 1 && draft.state.Detected? && draft.envelope.None?
       case Beginning(snap, _, command) => Unclaimed(s.store.log, snap.revision, AgentStarted, command)
       case Requesting(snap, _, command, _) => Unclaimed(s.store.log, snap.revision, ApprovalRequested, command)
       case PointingAtBrief(snap, _) => snap.state.PolicyVerified?
       case Deciding(snap, _, verdict) =>
         verdict.Record? ==>
           var decided := if verdict.approval.decision.Approve? then Approved else ClosedRejected;
           snap.state.AwaitingApproval?
           && ApprovalOk(s.config, snap.(approval := Some(verdict.approval), state := decided))
       case Launching(snap, denied) =>
         !denied ==>
           && (snap.state.Approved? || snap.state.ExecutionFailed?)
           && (forall k :: k in snap.status ==> snap.status[k] == Completed)
       case Ready(plan, at, _, local) => forall j :: at <= j < |plan| ==> plan[j].key !in local.status
       case _ => true
  }

  // ---------------------------------------------------------------- execution

  predicate Active(p: Position) {
    p.Ready? || p.Reloading? || p.Reporting? || p.Calling? || p.InFlight?
  }

  ghost predicate CallsFollow(calls: seq<Call>, plan: seq<Action>) {
    |calls| <= |plan| && forall j :: 0 <= j < |calls| ==> calls[j].action == plan[j]
  }

  ghost predicate Settled(r: RunRecord, plan: seq<Action>, n: nat)
    requires n <= |plan|
  {
    forall j :: 0 <= j < n ==>
      plan[j].key in r.status && r.status[plan[j].key] == Completed && plan[j].key in r.receipts
  }

  ghost predicate Untouched(r: RunRecord, plan: seq<Action>, n: nat) {
    forall j :: n <= j < |plan| ==> plan[j].key !in r.status
  }

  /** Where the one executing caller stands, against the stored statuses and the calls made. */
  ghost predicate Pacing(p: Position, r: RunRecord, plan: seq<Action>, made: nat)
    requires Active(p)
  {
    && p.plan == plan && p.at <= |plan|
    && Settled(r, plan, p.at)
    && if p.Ready? || (!p.Calling? && !p.InFlight? && (p.report.Starting? || p.report.Finished?)) then
         && made == p.at
         && Untouched(r, plan, p.at)
         && (!p.Ready? ==> (p.report.Finished? <==> p.at == |plan|))
       else
         && p.at < |plan|
         && made == (if p.Calling? then p.at else p.at + 1)
         && plan[p.at].key in r.status && r.status[plan[p.at].key] == Started
         && Untouched(r, plan, p.at + 1)
  }

  ghost predicate Execution(s: System) {
    if s.store.record.None? || !Launched(s.store.record.value.state) then
      && s.calls == []
      && (forall w :: w in s.callers ==> !Active(s.callers[w]))
      && (forall i :: 0 <= i < |s.store.log| ==> !s.store.log[i].kind.ExecutionStarted?)
    else
      var r := s.store.record.value;
      && r.envelope.Some?
      && StartedOnce(s.store.log)
      && var plan := r.envelope.value.manifest.actions;
      && CallsFollow(s.calls, plan)
      && (forall w :: w in s.callers && Active(s.callers[w]) ==>
            r.state.Executing? && Pacing(s.callers[w], r, plan, |s.calls|))
      && (forall w, v :: w in s.callers && v in s.callers && Active(s.callers[w]) && Active(s.callers[v]) ==> w == v)
      && (r.state.ExecutionFailed? ==> exists k :: k in r.status && r.status[k] == Unknown)
      && (r.state.Executed? ==> Settled(r, plan, |plan|) && |s.calls| == |plan|)
  }

  ghost predicate BriefsOk(s: System) {
    forall v :: v in s.store.briefs ==>
      && s.store.record.Some?
      && 0 < v <= s.store.record.value.briefVersion
      && s.store.briefs[v].brief.version == v
      && EnvelopeOk(s.config.runId, s.store.briefs[v])
  }

  /** Everything but the execution in progress. */
  ghost predicate Bookkeeping(s: System) {
    && AuditTrail(s.store)
    && CommandsOnce(s.store.log)
    && (s.store.record.Some? ==> RecordOk(s.config, s.store.record.value))
    && (forall w :: w in s.callers ==> PositionOk(s, s.callers[w]))
    && BriefsOk(s)
  }

  ghost predicate Inv(s: System) {
    Bookkeeping(s) && Execution(s)
  }

  // ---------------------------------------------------------------- commits

  /** A commit drafted from a held snapshot succeeds only if that snapshot is the current one. */
  lemma WinnerIsCurrent(m: Ledger, snap: RunRecord, c: Change)
    requires SnapOk(m, snap) && c.expected == snap.revision
    ensures Accepts(m, c) ==> m.record == Some(snap)
  {
  }

  lemma AppendKeepsAudit(m: Ledger, snap: RunRecord, c: Change)
    requires AuditTrail(m) && SnapOk(m, snap)
    requires c.expected == snap.revision && c.event.state == c.record.state
    requires c.event.state == snap.state || CanTransition(snap.state, c.event.state)
    ensures AuditTrail(Append(m, c))
  {
  }

  lemma AppendKeepsCommands(m: Ledger, snap: RunRecord, c: Change)
    requires CommandsOnce(m.log) && AuditTrail(m) && SnapOk(m, snap) && c.expected == snap.revision
    requires Unclaimed(m.log, snap.revision, c.event.kind, c.event.command)
    ensures CommandsOnce(Append(m, c).log)
  {
  }

  lemma AppendKeepsPosition(s: System, c: Change, p: Position)
    requires PositionOk(s, p) && AuditTrail(s.store)
    ensures PositionOk(s.(store := Append(s.store, c)), p)
  {
  }

  /** A caller moves without touching the store or the outside world. */
  lemma GotoKeeps(s: System, w: nat, p: Position)
    requires Inv(s) && PositionOk(s, p)
    requires Active(p) ==>
      && Active(At(s, w)) && s.store.record.Some? && s.store.record.value.envelope.Some?
      && Pacing(p, s.store.record.value, s.store.record.value.envelope.value.manifest.actions, |s.calls|)
    ensures Inv(Goto(s, w, p))
  {
    hide AuditTrail, CommandsOnce, StartedOnce, RecordOk, ApprovalOk, SnapOk, Unclaimed;
    var t := Goto(s, w, p);
    forall v | v in t.callers ensures PositionOk(t, t.callers[v]) {
      assert v != w ==> v in s.callers;
    }
  }

  /** A caller returns, raises, stops, or waits for an answer. */
  lemma GotoFree(s: System, w: nat, p: Position)
    requires Inv(s) && (p.Idle? || p.Asking? || p.Failing?)
    ensures Inv(Goto(s, w, p))
  {
    hide Inv;
    GotoKeeps(s, w, p);
  }

  /** A caller reads the snapshot. */
  lemma GotoLoaded(s: System, w: nat, p: Position)
    requires Inv(s) && s.store.record.Some? && SnapOf(p) == s.store.record
    requires p.Pricing? || p.Replaying? || p.Withholding? || p.HoldingEvidence?
    ensures Inv(Goto(s, w, p))
  {
    GotoKeeps(s, w, p);
  }

  /** What a winning commit must satisfy to keep the books. */
  ghost predicate Drafted(s: System, snap: RunRecord, c: Change) {
    && SnapOk(s.store, snap)
    && c.expected == snap.revision
    && c.event.state == c.record.state
    && (c.event.state == snap.state || CanTransition(snap.state, c.event.state))
    && Unclaimed(s.store.log, snap.revision, c.event.kind, c.event.command)
  }

  lemma CommitKeepsBooks(s: System, w: nat, snap: RunRecord, c: Change, done: Position)
    requires Bookkeeping(s) && Drafted(s, snap, c) && Accepts(s.store, c)
    requires RecordOk(s.config, c.record)
    requires PositionOk(s.(store := Append(s.store, c)), done)
    requires snap.briefVersion <= c.record.briefVersion
    requires c.event.kind.BriefVersioned? ==> c.record.briefVersion == EnvelopeVersion(c.record)
    ensures Bookkeeping(Goto(s.(store := Append(s.store, c)), w, done))
  {
    var u := s.(store := Append(s.store, c));
    var t := Goto(u, w, done);
    WinnerIsCurrent(s.store, snap, c);
    AppendKeepsAudit(s.store, snap, c);
    AppendKeepsCommands(s.store, snap, c);
    forall v | v in t.callers ensures PositionOk(t, t.callers[v]) {
      if v != w {
        AppendKeepsPosition(s, c, s.callers[v]);
      }
    }
    assert BriefsOk(t);
  }

  /** A commit that launches nothing, and in an execution only writes to the audit log. */
  lemma QuietCommitKeepsExecution(s: System, w: nat, snap: RunRecord, c: Change, done: Position)
    requires Execution(s) && Drafted(s, snap, c) && Accepts(s.store, c)
    requires !c.event.kind.ExecutionStarted? && !Active(done)
    requires if Launched(snap.state) then c.record == snap.(revision := snap.revision + 1) else !Launched(c.record.state)
    ensures Execution(Goto(s.(store := Append(s.store, c)), w, done))
  {
    WinnerIsCurrent(s.store, snap, c);
  }

  /** The two together, for any commit attempt by a caller that is not executing. */
  lemma QuietStoreKeeps(s: System, w: nat, snap: RunRecord, c: Change, done: Position, lost: Position)
    requires Inv(s) && Drafted(s, snap, c)
    requires !c.event.kind.ExecutionStarted? && !Active(done) && !Active(lost) && PositionOk(s, lost)
    requires Accepts(s.store, c) ==>
      && RecordOk(s.config, c.record)
      && PositionOk(s.(store := Append(s.store, c)), done)
      && snap.briefVersion <= c.record.briefVersion
      && (c.event.kind.BriefVersioned? ==> c.record.briefVersion == EnvelopeVersion(c.record))
      && if Launched(snap.state) then c.record == snap.(revision := snap.revision + 1) else !Launched(c.record.state)
    ensures Inv(Store(s, w, c, done, lost))
  {
    if Accepts(s.store, c) {
      CommitKeepsBooks(s, w, snap, c, done);
      QuietCommitKeepsExecution(s, w, snap, c, done);
    } else {
      GotoKeeps(s, w, lost);
    }
  }

  lemma AuditKeeps(s: System, w: nat, snap: RunRecord, kind: EventType, actor: nat)
    requires Inv(s) && SnapOk(s.store, snap)
    requires !kind.ExecutionStarted? && !kind.BriefVersioned?
    ensures Inv(Store(s, w, Audit(snap, kind, actor), Idle, Idle))
  {
    WinnerIsCurrent(s.store, snap, Audit(snap, kind, actor));
    QuietStoreKeeps(s, w, snap, Audit(snap, kind, actor), Idle, Idle);
  }

  // ---------------------------------------------------------------- steps before a decision

  lemma DetectLoadKeeps(s: System, w: nat, a: Act)
    requires Inv(s) && a.DetectLoad?
    ensures Inv(NextDetect(s, w, a))
  {
    if NextDetect(s, w, a) != s {
      GotoKeeps(s, w, Creating(
        RunRecord(s.config.runId, Detected, 0, None, 1, a.discount, None, None, [], None, map[], map[], None), a.actor));
    }
  }

  lemma DetectKeeps(s: System, w: nat, p: Position)
    requires Inv(s) && At(s, w) == p && p.Creating?
    ensures Inv(NextCreate(s, w, p))
  {
    var c := Change(p.draft, Event(1, RunDetected, Detected, p.actor, None), 0);
    if Accepts(s.store, c) {
      var t := NextCreate(s, w, p);
      forall v | v in t.callers ensures PositionOk(t, t.callers[v]) {
        if v != w { AppendKeepsPosition(s, c, s.callers[v]); }
      }
    } else {
      GotoFree(s, w, Idle);
    }
  }

  lemma {:induction false} NoneClaimed(log: seq<Event>, kind: EventType, key: nat)
    ensures Claimed(log, kind, key).None? <==>
      forall i :: 0 <= i < |log| && log[i].kind == kind && log[i].command.Some? ==> log[i].command.value.key != key
  {
    if log != [] {
      NoneClaimed(log[1..], kind, key);
      assert forall i :: 0 < i < |log| ==> log[i] == log[1..][i - 1];
    }
  }

  lemma ReplayKeeps(s: System, w: nat, p: Position, packageOk: bool, now: int)
    requires Inv(s) && w in s.callers && s.callers[w] == p && p.Replaying?
    ensures Inv(NextReplay(s, w, p, packageOk, now))
  {
    hide Inv;
    Positioned(s, w);
    if p.key.Some? {
      NoneClaimed(s.store.log, AgentStarted, p.key.value);
      NoneClaimed(s.store.log, ApprovalRequested, p.key.value);
    }
    GotoFree(s, w, Idle);
    var command := if p.key.Some? then Some(Command(p.key.value, p.revision)) else None;
    var q := if p.assembling then Beginning(p.snap, p.actor, command) else Requesting(p.snap, p.actor, command, now);
    if NextReplay(s, w, p, packageOk, now) != Goto(s, w, Idle) {
      GotoKeeps(s, w, q);
    }
  }

  lemma CurrentRecord(s: System, snap: RunRecord, c: Change)
    requires Inv(s) && SnapOk(s.store, snap) && c.expected == snap.revision && Accepts(s.store, c)
    ensures s.store.record == Some(snap) && RecordOk(s.config, snap)
  {
  }

  /** A commit before any decision: the record stays within the undecided states. */
  lemma UndecidedStoreKeeps(s: System, w: nat, snap: RunRecord, kind: EventType, actor: nat, target: RunState,
                            updated: RunRecord, command: Option<Command>, done: Position, lost: Position)
    requires Inv(s) && SnapOk(s.store, snap)
    requires CanTransition(snap.state, target) && !Decided(snap.state) && !Decided(target)
    requires !kind.ExecutionStarted? && !kind.BriefVersioned?
    requires Unclaimed(s.store.log, snap.revision, kind, command)
    requires updated.runId == snap.runId && updated.approval == snap.approval && updated.status == snap.status
    requires updated.receipts == snap.receipts && updated.briefVersion == snap.briefVersion
    requires EnvelopeVersion(snap) <= EnvelopeVersion(updated)
    requires updated.envelope == snap.envelope || (updated.envelope.Some? && EnvelopeOk(s.config.runId, updated.envelope.value))
    requires !Active(done) && !Active(lost) && PositionOk(s, lost)
    requires var c := Draft(snap, kind, actor, Some(target), updated, command);
      Accepts(s.store, c) ==> PositionOk(s.(store := Append(s.store, c)), done)
    ensures Inv(Store(s, w, Draft(snap, kind, actor, Some(target), updated, command), done, lost))
  {
    var c := Draft(snap, kind, actor, Some(target), updated, command);
    if Accepts(s.store, c) {
      CurrentRecord(s, snap, c);
      assert RecordOk(s.config, c.record);
    }
    QuietStoreKeeps(s, w, snap, c, done, lost);
  }

  lemma BeginKeeps(s: System, w: nat, p: Position)
    requires Inv(s) && w in s.callers && s.callers[w] == p && p.Beginning?
    ensures Inv(NextBegin(s, w, p))
  {
    hide Inv, RecordOk;
    Positioned(s, w);
    if CanTransition(p.snap.state, ContextAssembling) {
      UndecidedStoreKeeps(s, w, p.snap, AgentStarted, p.actor, ContextAssembling, p.snap, p.command, Asking(p.actor), Idle);
    } else {
      GotoFree(s, w, Idle);
    }
  }

  lemma ProposedKeeps(s: System, w: nat, p: Position, proposal: nat, evidence: seq<nat>, valid: bool)
    requires Inv(s) && p.Asking?
    ensures Inv(NextProposed(s, w, p, proposal, evidence, valid))
  {
    GotoFree(s, w, Idle);
    GotoFree(s, w, Failing(p.actor));
    if s.store.record.Some? {
      GotoKeeps(s, w, HoldingEvidence(s.store.record.value, p.actor, proposal, evidence));
    }
  }

  lemma EvidenceKeeps(s: System, w: nat, p: Position)
    requires Inv(s) && w in s.callers && s.callers[w] == p && p.HoldingEvidence?
    ensures Inv(NextEvidence(s, w, p))
  {
    hide Inv, RecordOk;
    Positioned(s, w);
    var updated := p.snap.(proposal := Some(p.proposal), evidence := p.evidence);
    var c := Draft(p.snap, EvidenceValidated, p.actor, Some(ContextAssembled), updated, None);
    if CanTransition(p.snap.state, ContextAssembled) {
      UndecidedStoreKeeps(s, w, p.snap, EvidenceValidated, p.actor, ContextAssembled, updated, None,
                          BuildingBrief(c.record, p.actor), Idle);
    } else {
      GotoFree(s, w, Failing(p.actor));
    }
  }

  /** A built brief is the next version, bound to its manifest, its keys carrying the version. */
  lemma BuiltBriefIsNext(r: RunRecord, body: nat, manifestId: nat, file: nat, mail: nat)
    requires r.envelope.Some? ==> EnvelopeOk(r.runId, r.envelope.value)
    ensures var built := BuildBrief(r, body, manifestId, file, mail);
      built.Ok? && EnvelopeOk(r.runId, built.value)
      && built.value.brief.version == EnvelopeVersion(r) + 1
      && built.value.brief.evidence == EvidenceDigest(r.evidence)
  {
  }

  lemma PolicyStoreKeeps(s: System, w: nat, snap: RunRecord, actor: nat, e: VersionedBrief)
    requires Inv(s) && SnapOk(s.store, snap) && CanTransition(snap.state, PolicyVerified)
    requires EnvelopeOk(s.config.runId, e) && EnvelopeVersion(snap) < e.brief.version
    ensures var c := Draft(snap, PolicyVerifiedEvent, actor, Some(PolicyVerified), snap.(envelope := Some(e)), None);
      Inv(Store(s, w, c, PointingAtBrief(c.record, actor), Idle))
  {
    var updated := snap.(envelope := Some(e));
    var c := Draft(snap, PolicyVerifiedEvent, actor, Some(PolicyVerified), updated, None);
    UndecidedStoreKeeps(s, w, snap, PolicyVerifiedEvent, actor, PolicyVerified, updated, None,
                        PointingAtBrief(c.record, actor), Idle);
  }

  lemma PolicyKeeps(s: System, w: nat, p: Position, a: Act)
    requires Inv(s) && w in s.callers && s.callers[w] == p && p.BuildingBrief? && a.PolicyStore?
    ensures Inv(NextPolicy(s, w, p, a))
  {
    assert PositionOk(s, p);
    var built := BuildBrief(p.snap, a.body, a.manifestId, a.file, a.mail);
    if !a.factsOk || built.Err? || !CanTransition(p.snap.state, PolicyVerified) {
      GotoFree(s, w, Failing(p.actor));
    } else {
      var c := Draft(p.snap, PolicyVerifiedEvent, p.actor, Some(PolicyVerified), p.snap.(envelope := Some(built.value)), None);
      if Accepts(s.store, c) {
        CurrentRecord(s, p.snap, c);
        BuiltBriefIsNext(p.snap, a.body, a.manifestId, a.file, a.mail);
        hide Inv, BuildBrief, EnvelopeOk, RecordOk;
        PolicyStoreKeeps(s, w, p.snap, p.actor, built.value);
      } else {
        hide Inv, BuildBrief;
        GotoFree(s, w, Idle);
      }
    }
  }

  lemma PointedRecordOk(config: Config, r: RunRecord)
    requires RecordOk(config, r) && r.envelope.Some? && r.state.PolicyVerified?
    ensures var e := r.envelope.value;
      RecordOk(config, r.(briefVersion := e.brief.version, briefHash := Some(e.hash), revision := r.revision + 1))
    ensures r.briefVersion <= r.envelope.value.brief.version
  {
  }

  lemma BriefKeeps(s: System, w: nat, p: Position, acked: bool)
    requires Inv(s) && w in s.callers && s.callers[w] == p && p.PointingAtBrief?
    ensures Inv(NextBrief(s, w, p, acked))
  {
    hide Inv, RecordOk;
    Positioned(s, w);
    if p.snap.envelope.None? {
      GotoFree(s, w, Failing(p.actor));
    } else {
      var e := p.snap.envelope.value;
      var c := Draft(p.snap, BriefVersioned, p.actor, None, p.snap.(briefVersion := e.brief.version, briefHash := Some(e.hash)), None);
      if Accepts(s.store, c) {
        CurrentRecord(s, p.snap, c);
        PointedRecordOk(s.config, p.snap);
      }
      QuietStoreKeeps(s, w, p.snap, c, if acked then Idle else Failing(p.actor), Idle);
    }
  }

  /** From any snapshot, a commit to the hold state keeps the invariant or is refused. */
  lemma HoldKeeps(s: System, w: nat, snap: RunRecord, kind: EventType, actor: nat)
    requires Inv(s) && SnapOk(s.store, snap) && (kind.EvidenceHeld? || kind.DeliveryFailed?)
    ensures Inv(StoreTo(s, w, snap, EvidenceHold, Draft(snap, kind, actor, Some(EvidenceHold), snap, None), Idle, Idle))
  {
    if CanTransition(snap.state, EvidenceHold) {
      UndecidedStoreKeeps(s, w, snap, kind, actor, EvidenceHold, snap, None, Idle, Idle);
    } else {
      GotoFree(s, w, Idle);
    }
  }

  lemma RequestKeeps(s: System, w: nat, p: Position)
    requires Inv(s) && w in s.callers && s.callers[w] == p && p.Requesting?
    ensures Inv(NextRequest(s, w, p))
  {
    hide Inv, RecordOk;
    Positioned(s, w);
    var updated := p.snap.(requestedAt := Some(p.now));
    var c := Draft(p.snap, ApprovalRequested, p.actor, Some(AwaitingApproval), updated, p.command);
    if CanTransition(p.snap.state, AwaitingApproval) {
      UndecidedStoreKeeps(s, w, p.snap, ApprovalRequested, p.actor, AwaitingApproval, updated, p.command,
                          SendingCard(c.record, p.actor), Idle);
    } else {
      GotoFree(s, w, Idle);
    }
  }

  lemma CardKeeps(s: System, w: nat, p: Position)
    requires Inv(s) && w in s.callers && s.callers[w] == p && p.CardAnswered?
    ensures Inv(NextCard(s, w, p))
  {
    hide Inv;
    Positioned(s, w);
    if p.delivered {
      AuditKeeps(s, w, p.snap, CardSent, p.actor);
    } else {
      HoldKeeps(s, w, p.snap, DeliveryFailed, p.actor);
    }
  }

  // ---------------------------------------------------------------- the decision

  lemma JudgeKeeps(s: System, w: nat, a: Act)
    requires Inv(s) && a.DecideLoad? && s.store.record.Some? && At(s, w).Idle?
    ensures Inv(NextJudge(s, w, a))
  {
    var r := s.store.record.value;
    var v := Judge(s.config, r, a.actor, a.hash, a.decision, a.version, a.now, a.factsOk, a.evidenceOk);
    if v.Some? {
      GotoKeeps(s, w, Deciding(r, a.actor, v.value));
    }
  }

  lemma DecidedRecordOk(config: Config, snap: RunRecord, approval: Approval, target: RunState, actor: nat)
    requires RecordOk(config, snap) && snap.state.AwaitingApproval?
    requires target == if approval.decision.Approve? then Approved else ClosedRejected
    requires ApprovalOk(config, snap.(approval := Some(approval), state := target))
    ensures RecordOk(config, Draft(snap, DecisionRecorded, actor, Some(target), snap.(approval := Some(approval)), None).record)
  {
  }

  lemma DecideKeeps(s: System, w: nat, p: Position)
    requires Inv(s) && w in s.callers && s.callers[w] == p && p.Deciding?
    ensures Inv(NextDecide(s, w, p))
  {
    hide Inv, RecordOk;
    Positioned(s, w);
    match p.verdict
    case Deny => AuditKeeps(s, w, p.snap, DecisionDenied, p.actor);
    case Duplicate => AuditKeeps(s, w, p.snap, DuplicateIgnored, p.actor);
    case Record(approval) =>
      var target := if approval.decision.Approve? then Approved else ClosedRejected;
      var c := Draft(p.snap, DecisionRecorded, p.actor, Some(target), p.snap.(approval := Some(approval)), None);
      if Accepts(s.store, c) {
        CurrentRecord(s, p.snap, c);
        DecidedRecordOk(s.config, p.snap, approval, target, p.actor);
      }
      QuietStoreKeeps(s, w, p.snap, c, Idle, Idle);
  }

  // ---------------------------------------------------------------- the execution

  lemma LaunchKeeps(s: System, w: nat, factsOk: bool, evidenceOk: bool)
    requires Inv(s) && s.store.record.Some? && At(s, w).Idle?
    ensures Inv(NextLaunch(s, w, factsOk, evidenceOk))
  {
    var r := s.store.record.value;
    var ok := MayLaunch(s.config, r, factsOk, evidenceOk);
    if !r.state.Executed? && ok.Some? {
      GotoKeeps(s, w, Launching(r, !ok.value));
    }
  }

  /** A failed execution holds an unknown status, so it can never be launched again. */
  lemma OnlyApprovedLaunches(s: System, p: Position, c: Change)
    requires Inv(s) && p.Launching? && !p.denied && PositionOk(s, p)
    requires c.expected == p.snap.revision && Accepts(s.store, c)
    ensures s.store.record == Some(p.snap) && p.snap.state.Approved?
  {
    CurrentRecord(s, p.snap, c);
  }

  lemma ExecuteKeeps(s: System, w: nat, p: Position)
    requires Inv(s) && w in s.callers && s.callers[w] == p && p.Launching?
    ensures Inv(NextExecute(s, w, p))
  {
    hide Inv, RecordOk, CanTransition;
    Positioned(s, w);
    if p.denied || p.snap.approval.None? || p.snap.envelope.None? {
      AuditKeeps(s, w, p.snap, ExecutionDenied, 0);
    } else {
      var actor := p.snap.approval.value.actor;
      var c := Draft(p.snap, ExecutionStarted, actor, Some(Executing), p.snap, None);
      if Accepts(s.store, c) {
        OnlyApprovedLaunches(s, p, c);
        LaunchKeepsInv(s, w, p.snap, c, actor);
        assert CanTransition(Approved, Executing) by { ApprovedLaunches(); }
      } else {
        GotoFree(s, w, Idle);
      }
    }
  }

  lemma ApprovedLaunches()
    ensures CanTransition(Approved, Executing)
  {
  }

  lemma LaunchKeepsInv(s: System, w: nat, snap: RunRecord, c: Change, actor: nat)
    requires Inv(s) && Accepts(s.store, c) && s.store.record == Some(snap) && snap.state.Approved? && snap.envelope.Some?
    requires c == Draft(snap, ExecutionStarted, actor, Some(Executing), snap, None)
    ensures Inv(Goto(s.(store := Append(s.store, c)), w, Ready(snap.envelope.value.manifest.actions, 0, actor, c.record)))
  {
    LaunchStartsExecution(s, w, snap, c, actor);
    assert RecordOk(s.config, snap);
    CommitKeepsBooks(s, w, snap, c, Ready(snap.envelope.value.manifest.actions, 0, actor, c.record));
  }

  lemma LaunchStartsExecution(s: System, w: nat, snap: RunRecord, c: Change, actor: nat)
    requires Inv(s) && Accepts(s.store, c) && s.store.record == Some(snap) && snap.state.Approved? && snap.envelope.Some?
    requires c == Draft(snap, ExecutionStarted, actor, Some(Executing), snap, None)
    ensures Execution(Goto(s.(store := Append(s.store, c)), w, Ready(snap.envelope.value.manifest.actions, 0, actor, c.record)))
  {
    assert RecordOk(s.config, snap);
  }

  /** The executing caller is where the store says it is. */
  lemma Paced(s: System, w: nat)
    requires Inv(s) && w in s.callers && Active(s.callers[w])
    ensures s.store.record.Some? && s.store.record.value.envelope.Some? && s.store.record.value.state.Executing?
    ensures Pacing(s.callers[w], s.store.record.value, s.store.record.value.envelope.value.manifest.actions, |s.calls|)
  {
  }

  lemma ActionKeeps(s: System, w: nat, p: Position)
    requires Inv(s) && w in s.callers && s.callers[w] == p && p.Ready?
    ensures Inv(NextAction(s, w, p))
  {
    hide Inv, Settled, Untouched;
    Positioned(s, w);
    Paced(s, w);
    if p.at >= |p.plan| {
      GotoKeeps(s, w, Reloading(p.plan, p.at, p.actor, Finished, COMMIT_ATTEMPTS));
    } else {
      GotoKeeps(s, w, Reloading(p.plan, p.at, p.actor, Starting, COMMIT_ATTEMPTS));
    }
  }

  lemma ReloadKeeps(s: System, w: nat, p: Position)
    requires Inv(s) && w in s.callers && s.callers[w] == p && p.Reloading?
    ensures Inv(NextReload(s, w, p))
  {
    hide AuditTrail, CommandsOnce, BriefsOk, StartedOnce, CallsFollow, Settled, Untouched;
    GotoFree(s, w, Idle);
    if s.store.record.Some? {
      GotoKeeps(s, w, Reporting(p.plan, p.at, p.actor, p.report, p.tries, s.store.record.value));
    }
  }

  lemma ReportKeeps(s: System, w: nat, p: Position)
    requires Inv(s) && w in s.callers && s.callers[w] == p && p.Reporting?
    ensures Inv(NextReport(s, w, p))
  {
    Paced(s, w);
    ReportPlace(s, w, p);
    hide Inv, Pacing, PositionOk, RecordOk, SnapOk, Accepts, Append, ReportedStatus;
    var c := Draft(p.snap, ReportKind(p.report), p.actor, ReportTarget(p.report), ReportedStatus(p.snap, p.plan, p.at, p.report), None);
    if Accepts(s.store, c) {
      CurrentRecord(s, p.snap, c);
      ReportWins(s, w, p, c);
      ReportStores(s, w, p, c);
    } else {
      ReportLost(s, w, p);
      ReportRetries(s, w, p, c);
    }
  }

  lemma ReportPlace(s: System, w: nat, p: Position)
    requires Inv(s) && w in s.callers && s.callers[w] == p && p.Reporting?
    ensures SnapOk(s.store, p.snap) && (p.report.Finished? || p.at < |p.plan|)
  {
    Paced(s, w);
    assert PositionOk(s, p);
  }

  lemma ReportRetries(s: System, w: nat, p: Position, c: Change)
    requires p.Reporting? && (p.report.Finished? || p.at < |p.plan|) && !Accepts(s.store, c)
    requires c == Draft(p.snap, ReportKind(p.report), p.actor, ReportTarget(p.report),
                        ReportedStatus(p.snap, p.plan, p.at, p.report), None)
    ensures NextReport(s, w, p) == Goto(s, w, Idle)
         || NextReport(s, w, p) == Goto(s, w, Reloading(p.plan, p.at, p.actor, p.report, if p.tries <= 1 then 0 else p.tries - 1))
  {
  }

  lemma ReportStores(s: System, w: nat, p: Position, c: Change)
    requires p.Reporting? && p.snap.state.Executing? && (p.report.Finished? || p.at < |p.plan|) && Accepts(s.store, c)
    requires c == Draft(p.snap, ReportKind(p.report), p.actor, ReportTarget(p.report),
                        ReportedStatus(p.snap, p.plan, p.at, p.report), None)
    ensures NextReport(s, w, p) == Goto(s.(store := Append(s.store, c)), w, AfterReport(p, c.record))
  {
  }

  lemma ReportLost(s: System, w: nat, p: Position)
    requires Inv(s) && w in s.callers && s.callers[w] == p && p.Reporting?
    ensures Inv(Goto(s, w, Idle)) && Inv(Goto(s, w, Reloading(p.plan, p.at, p.actor, p.report, if p.tries <= 1 then 0 else p.tries - 1)))
  {
    hide Inv, Settled, Untouched;
    Paced(s, w);
    GotoKeeps(s, w, Idle);
    GotoKeeps(s, w, Reloading(p.plan, p.at, p.actor, p.report, if p.tries <= 1 then 0 else p.tries - 1));
  }

  /** The keys of one envelope are distinct. */
  lemma KeysDistinct(runId: nat, e: VersionedBrief, i: nat, j: nat)
    requires EnvelopeOk(runId, e) && i < |e.manifest.actions| && j < |e.manifest.actions| && i != j
    ensures e.manifest.actions[i].key != e.manifest.actions[j].key
  {
  }

  function AfterReport(p: Position, local: RunRecord): Position
    requires p.Reporting?
  {
    match p.report
    case Starting => Calling(p.plan, p.at, p.actor)
    case Done(_) => Ready(p.plan, p.at + 1, p.actor, local)
    case Failed => Idle
    case Finished => Idle
  }

  /** A committed report moves the executing caller one place on, in step with the statuses. */
  lemma ReportAdvances(p: Position, r: RunRecord, next: RunRecord, runId: nat, made: nat)
    requires p.Reporting? && r.envelope.Some? && EnvelopeOk(runId, r.envelope.value)
    requires Pacing(p, r, r.envelope.value.manifest.actions, made)
    requires next.status == ReportedStatus(r, p.plan, p.at, p.report).status
    requires next.receipts == ReportedStatus(r, p.plan, p.at, p.report).receipts
    ensures Active(AfterReport(p, next)) ==> Pacing(AfterReport(p, next), next, r.envelope.value.manifest.actions, made)
    ensures p.report.Done? ==> forall j :: p.at + 1 <= j < |p.plan| ==> p.plan[j].key !in next.status
    ensures p.report.Failed? ==> p.plan[p.at].key in next.status && next.status[p.plan[p.at].key] == Unknown
    ensures p.report.Finished? ==> Settled(next, p.plan, |p.plan|) && made == |p.plan|
  {
    forall j | 0 <= j < |p.plan| && !p.report.Finished? && j != p.at ensures p.plan[j].key != p.plan[p.at].key {
      KeysDistinct(runId, r.envelope.value, j, p.at);
    }
  }

  lemma ReportedRecordOk(config: Config, p: Position, next: RunRecord, made: nat)
    requires p.Reporting? && RecordOk(config, p.snap) && p.snap.envelope.Some? && p.snap.state.Executing?
    requires Pacing(p, p.snap, p.snap.envelope.value.manifest.actions, made)
    requires next == Draft(p.snap, ReportKind(p.report), p.actor, ReportTarget(p.report),
                           ReportedStatus(p.snap, p.plan, p.at, p.report), None).record
    ensures RecordOk(config, next)
  {
  }

  lemma ReportKeepsExecution(s: System, w: nat, p: Position, c: Change, done: Position)
    requires Execution(s) && w in s.callers && s.callers[w] == p && p.Reporting?
    requires s.store.record == Some(p.snap) && Accepts(s.store, c) && !c.event.kind.ExecutionStarted?
    requires Launched(p.snap.state) && Launched(c.record.state) && c.record.envelope == p.snap.envelope
    requires p.snap.envelope.Some?
    requires var plan := p.snap.envelope.value.manifest.actions;
      && (Active(done) ==> c.record.state.Executing? && Pacing(done, c.record, plan, |s.calls|))
      && (c.record.state.ExecutionFailed? ==> exists k :: k in c.record.status && c.record.status[k] == Unknown)
      && (c.record.state.Executed? ==> Settled(c.record, plan, |plan|) && |s.calls| == |plan|)
    ensures Execution(Goto(s.(store := Append(s.store, c)), w, done))
  {
    hide Pacing, Settled;
    var t := Goto(s.(store := Append(s.store, c)), w, done);
    assert StartedOnce(t.store.log);
    assert Active(s.callers[w]);
  }

  lemma ReportKeepsBooks(s: System, w: nat, p: Position, c: Change)
    requires Bookkeeping(s) && PositionOk(s, p) && p.Reporting? && p.snap.state.Executing?
    requires s.store.record == Some(p.snap) && Accepts(s.store, c) && RecordOk(s.config, c.record)
    requires p.report.Finished? || p.at < |p.plan|
    requires c == Draft(p.snap, ReportKind(p.report), p.actor, ReportTarget(p.report),
                        ReportedStatus(p.snap, p.plan, p.at, p.report), None)
    requires p.report.Done? ==> forall j :: p.at + 1 <= j < |p.plan| ==> p.plan[j].key !in c.record.status
    ensures Bookkeeping(Goto(s.(store := Append(s.store, c)), w, AfterReport(p, c.record)))
  {
    hide RecordOk, Bookkeeping;
    CommitKeepsBooks(s, w, p.snap, c, AfterReport(p, c.record));
  }

  lemma ReportWins(s: System, w: nat, p: Position, c: Change)
    requires Inv(s) && w in s.callers && s.callers[w] == p && p.Reporting?
    requires s.store.record == Some(p.snap) && Accepts(s.store, c)
    requires p.report.Finished? || p.at < |p.plan|
    requires c == Draft(p.snap, ReportKind(p.report), p.actor, ReportTarget(p.report),
                        ReportedStatus(p.snap, p.plan, p.at, p.report), None)
    ensures Inv(Goto(s.(store := Append(s.store, c)), w, AfterReport(p, c.record)))
  {
    Paced(s, w);
    assert RecordOk(s.config, p.snap) && PositionOk(s, p);
    hide Pacing, Settled, Untouched, Execution, RecordOk, ReportedStatus, Bookkeeping, PositionOk;
    ReportAdvances(p, p.snap, c.record, s.config.runId, |s.calls|) by {
      EnvelopeIsOk(s.config, p.snap);
    }
    ReportedRecordOk(s.config, p, c.record, |s.calls|);
    ReportKeepsBooks(s, w, p, c);
    ReportKeepsExecution(s, w, p, c, AfterReport(p, c.record));
  }

  lemma EnvelopeIsOk(config: Config, r: RunRecord)
    requires RecordOk(config, r) && r.envelope.Some?
    ensures EnvelopeOk(config.runId, r.envelope.value)
  {
  }

  lemma InvokeKeeps(s: System, w: nat, p: Position)
    requires Inv(s) && w in s.callers && s.callers[w] == p && p.Calling?
    ensures Inv(NextInvoke(s, w, p))
  {
    hide AuditTrail, CommandsOnce, StartedOnce, RecordOk, ApprovalOk, SnapOk, Unclaimed;
    Paced(s, w);
    var t := NextInvoke(s, w, p);
    forall v | v in t.callers ensures PositionOk(t, t.callers[v]) {
      if v != w { assert PositionOk(s, s.callers[v]); }
    }
  }

  lemma AnswerKeeps(s: System, w: nat, p: Position, receipt: Option<nat>)
    requires Inv(s) && w in s.callers && s.callers[w] == p && p.InFlight?
    ensures Inv(Goto(s, w, Reloading(p.plan, p.at, p.actor, if receipt.Some? then Done(receipt.value) else Failed, COMMIT_ATTEMPTS)))
  {
    hide Inv, Settled, Untouched;
    Paced(s, w);
    GotoKeeps(s, w, Reloading(p.plan, p.at, p.actor, if receipt.Some? then Done(receipt.value) else Failed, COMMIT_ATTEMPTS));
  }

  lemma Positioned(s: System, w: nat)
    requires Inv(s) && w in s.callers
    ensures PositionOk(s, s.callers[w])
  {
  }

  lemma LoadKeeps(s: System, step: Step)
    requires Inv(s) && (step.act.PriceLoad? || step.act.AssembleLoad? || step.act.RequestLoad?)
    ensures Inv(Next(s, step))
  {
    hide Inv;
    var w := step.caller;
    if Next(s, step) != s {
      var r := s.store.record.value;
      if step.act.PriceLoad? {
        GotoLoaded(s, w, Pricing(r));
      } else if step.act.AssembleLoad? {
        GotoLoaded(s, w, Replaying(r, step.act.actor, step.act.revision, step.act.key, true));
      } else {
        GotoLoaded(s, w, Replaying(r, step.act.actor, step.act.revision, step.act.key, false));
      }
    }
  }

  lemma HoldLoadKeeps(s: System, w: nat, p: Position)
    requires Inv(s) && p.Failing? && s.store.record.Some?
    ensures Inv(Goto(s, w, Withholding(s.store.record.value, p.actor)))
  {
    hide Inv;
    GotoLoaded(s, w, Withholding(s.store.record.value, p.actor));
  }

  lemma PriceKeeps(s: System, w: nat, p: Position)
    requires Inv(s) && w in s.callers && s.callers[w] == p && p.Pricing?
    ensures Inv(Store(s, w, Audit(p.snap, PricingCompleted, s.config.agent), Idle, Idle))
  {
    assert PositionOk(s, p);
    AuditKeeps(s, w, p.snap, PricingCompleted, s.config.agent);
  }

  lemma WithholdKeeps(s: System, w: nat, p: Position)
    requires Inv(s) && w in s.callers && s.callers[w] == p && p.Withholding?
    ensures Inv(StoreTo(s, w, p.snap, EvidenceHold, Draft(p.snap, EvidenceHeld, p.actor, Some(EvidenceHold), p.snap, None), Idle, Idle))
  {
    assert PositionOk(s, p);
    HoldKeeps(s, w, p.snap, EvidenceHeld, p.actor);
  }

  lemma AnsweredKeeps(s: System, w: nat, p: Position, delivered: bool)
    requires Inv(s) && w in s.callers && s.callers[w] == p && p.SendingCard?
    ensures Inv(Goto(s, w, CardAnswered(p.snap, p.actor, delivered)))
  {
    assert PositionOk(s, p);
    GotoKeeps(s, w, CardAnswered(p.snap, p.actor, delivered));
  }

  lemma DraftingKeeps(s: System, step: Step)
    requires Inv(s)
    requires step.act.DetectLoad? || step.act.DetectStore? || step.act.PriceLoad? || step.act.PriceStore?
          || step.act.AssembleLoad? || step.act.RequestLoad? || step.act.ReplayCheck? || step.act.BeginStore?
          || step.act.Proposed? || step.act.Crash?
    ensures Inv(Next(s, step))
  {
    var w, p := step.caller, At(s, step.caller);
    hide Inv, NextDetect, NextCreate, NextReplay, NextBegin, NextProposed, Store, Audit, SnapOf, PositionOk;
    match step.act
    case Crash => GotoFree(s, w, Idle);
    case DetectLoad(_, _, _) => if p.Idle? { DetectLoadKeeps(s, w, step.act); }
    case DetectStore => if p.Creating? { DetectKeeps(s, w, p); }
    case PriceLoad(_) => LoadKeeps(s, step);
    case PriceStore => if p.Pricing? { PriceKeeps(s, w, p); }
    case AssembleLoad(_, _, _) => LoadKeeps(s, step);
    case RequestLoad(_, _, _) => LoadKeeps(s, step);
    case ReplayCheck(packageOk, now) => if p.Replaying? { ReplayKeeps(s, w, p, packageOk, now); }
    case BeginStore => if p.Beginning? { BeginKeeps(s, w, p); }
    case Proposed(proposal, evidence, valid) => if p.Asking? { ProposedKeeps(s, w, p, proposal, evidence, valid); }
  }

  lemma AssemblingKeeps(s: System, step: Step)
    requires Inv(s)
    requires step.act.EvidenceStore? || step.act.PolicyStore? || step.act.BriefStore? || step.act.Throw? || step.act.HoldLoad?
          || step.act.HoldStore? || step.act.RequestStore? || step.act.CardAnswer? || step.act.CardStore?
    ensures Inv(Next(s, step))
  {
    var w, p := step.caller, At(s, step.caller);
    hide Inv, NextEvidence, NextPolicy, NextBrief, NextRequest, NextCard, StoreTo, Draft, SnapOf, PositionOk;
    match step.act
    case EvidenceStore => if p.HoldingEvidence? { EvidenceKeeps(s, w, p); }
    case PolicyStore(_, _, _, _, _) => if p.BuildingBrief? { PolicyKeeps(s, w, p, step.act); }
    case BriefStore(acked) => if p.PointingAtBrief? { BriefKeeps(s, w, p, acked); }
    case Throw => if Next(s, step) != s { GotoFree(s, w, Failing(p.actor)); }
    case HoldLoad => if p.Failing? && s.store.record.Some? { HoldLoadKeeps(s, w, p); }
    case HoldStore => if p.Withholding? { WithholdKeeps(s, w, p); }
    case RequestStore => if p.Requesting? { RequestKeeps(s, w, p); }
    case CardAnswer(delivered) => if p.SendingCard? { AnsweredKeeps(s, w, p, delivered); }
    case CardStore => if p.CardAnswered? { CardKeeps(s, w, p); }
  }

  lemma ExecutingKeeps(s: System, step: Step)
    requires Inv(s)
    requires step.act.DecideLoad? || step.act.DecideStore? || step.act.ExecuteLoad? || step.act.ExecuteStore?
          || step.act.ExecuteNext? || step.act.ExecuteReload? || step.act.ExecuteReport? || step.act.Invoke? || step.act.Answer?
    ensures Inv(Next(s, step))
  {
    var w, p := step.caller, At(s, step.caller);
    hide Inv, NextDecide, NextJudge, NextLaunch, NextExecute, NextAction, NextReload, NextReport, NextInvoke;
    match step.act
    case DecideLoad(_, _, _, _, _, _, _) => if p.Idle? && s.store.record.Some? { JudgeKeeps(s, w, step.act); }
    case DecideStore => if p.Deciding? { DecideKeeps(s, w, p); }
    case ExecuteLoad(factsOk, evidenceOk) => if p.Idle? && s.store.record.Some? { LaunchKeeps(s, w, factsOk, evidenceOk); }
    case ExecuteStore => if p.Launching? { ExecuteKeeps(s, w, p); }
    case ExecuteNext => if p.Ready? { ActionKeeps(s, w, p); }
    case ExecuteReload => if p.Reloading? { ReloadKeeps(s, w, p); }
    case ExecuteReport => if p.Reporting? { ReportKeeps(s, w, p); }
    case Invoke => if p.Calling? { InvokeKeeps(s, w, p); }
    case Answer(receipt) => if p.InFlight? { AnswerKeeps(s, w, p, receipt); }
  }

  lemma NextKeepsInv(s: System, step: Step)
    requires Inv(s)
    ensures Inv(Next(s, step))
  {
    hide Inv, Next;
    var a := step.act;
    if a.DetectLoad? || a.DetectStore? || a.PriceLoad? || a.PriceStore? || a.AssembleLoad? || a.RequestLoad?
       || a.ReplayCheck? || a.BeginStore? || a.Proposed? || a.Crash? {
      DraftingKeeps(s, step);
    } else if a.EvidenceStore? || a.PolicyStore? || a.BriefStore? || a.Throw? || a.HoldLoad? || a.HoldStore?
              || a.RequestStore? || a.CardAnswer? || a.CardStore? {
      AssemblingKeeps(s, step);
    } else {
      ExecutingKeeps(s, step);
    }
  }

  lemma NextKeepsConfig(s: System, step: Step)
    ensures Next(s, step).config == s.config
  {
  }

  /** Every state of every run satisfies the invariant. */
  lemma RunsAreSafe(config: Config, steps: seq<Step>)
    ensures Inv(Run(Next, Initial(config), steps))
    ensures Run(Next, Initial(config), steps).config == config
  {
    var safe: System -> bool := s => Inv(s) && s.config == config;
    forall s: System, step: Step | safe(s) ensures safe(Next(s, step)) {
      NextKeepsInv(s, step);
      NextKeepsConfig(s, step);
    }
    RunKeeps(Next, safe, Initial(config), steps);
  }
}
