/** The methods of the controller, with the loops they have. Other callers run wherever the
    store, the agent or the executor is awaited; what they do there is a parameter. Each method
    is shown to be one caller's part of a run of the machine, so everything proved about all
    runs holds while it executes. */
module RunExecution {
  import opened Results
  import opened RunRecords
  import opened RunStore
  import opened RunController
  import opened RunSafety
  import History = RunHistory
  import opened Traces

  /** Why a call did not return a record. */
  datatype Failure = DeniedError | ConflictError | KeyError | BindingRaised

  /** What the other callers do at each point where this caller waits. */
  type Interference = nat -> seq<Step>

  ghost predicate LeavesMeAlone(me: nat, env: Interference) {
    forall n: nat, i :: 0 <= i < |env(n)| ==> env(n)[i].caller != me
  }

  lemma {:induction false} OthersLeaveMe(s: System, me: nat, steps: seq<Step>)
    requires forall i :: 0 <= i < |steps| ==> steps[i].caller != me
    ensures At(Run(Next, s, steps), me) == At(s, me)
    ensures Run(Next, s, steps).config == s.config
  {
    if steps != [] {
      OthersLeaveMe(s, me, steps[..|steps| - 1]);
      OtherLeavesMe(Run(Next, s, steps[..|steps| - 1]), me, steps[|steps| - 1]);
    }
  }

  lemma OtherLeavesMe(s: System, me: nat, step: Step)
    requires step.caller != me
    ensures At(Next(s, step), me) == At(s, me) && Next(s, step).config == s.config
  {
    if CommitsBeforeDecision(step.act) {
      CommitLeavesMe(s, me, step);
    } else {
      ReadLeavesMe(s, me, step);
    }
  }

  predicate CommitsBeforeDecision(a: Act) {
    a.DetectStore? || a.PriceStore? || a.BeginStore? || a.EvidenceStore? || a.PolicyStore? || a.BriefStore? || a.HoldStore?
    || a.RequestStore? || a.CardStore?
  }

  lemma CommitLeavesMe(s: System, me: nat, step: Step)
    requires step.caller != me && CommitsBeforeDecision(step.act)
    ensures At(Next(s, step), me) == At(s, me) && Next(s, step).config == s.config
  {
  }

  lemma ReadLeavesMe(s: System, me: nat, step: Step)
    requires step.caller != me && !CommitsBeforeDecision(step.act)
    ensures At(Next(s, step), me) == At(s, me) && Next(s, step).config == s.config
  {
  }

  lemma Extend(s: System, t: System, steps: seq<Step>, u: System, more: seq<Step>)
    requires t == Run(Next, s, steps) && u == Run(Next, t, more)
    ensures u == Run(Next, s, steps + more)
  {
    RunAppend(Next, s, steps, more);
  }

  lemma ExtendOne(s: System, t: System, steps: seq<Step>, step: Step)
    requires t == Run(Next, s, steps)
    ensures Next(t, step) == Run(Next, s, steps + [step])
  {
    RunOne(Next, t, step);
    RunAppend(Next, s, steps, [step]);
  }

  /** None of this caller's own steps changed the store. */
  ghost predicate StoredNothing(s: System, me: nat, steps: seq<Step>) {
    forall i :: 0 <= i < |steps| && steps[i].caller == me ==> Next(Run(Next, s, steps[..i]), steps[i]).store == Run(Next, s, steps[..i]).store
  }

  lemma OthersStoreNothing(s: System, me: nat, steps: seq<Step>)
    requires forall i :: 0 <= i < |steps| ==> steps[i].caller != me
    ensures StoredNothing(s, me, steps)
  {
  }

  lemma BothStoreNothing(s: System, t: System, me: nat, first: seq<Step>, second: seq<Step>)
    requires t == Run(Next, s, first) && StoredNothing(s, me, first) && StoredNothing(t, me, second)
    ensures StoredNothing(s, me, first + second)
  {
    hide Next;
    forall i | 0 <= i < |first + second| && (first + second)[i].caller == me
      ensures Next(Run(Next, s, (first + second)[..i]), (first + second)[i]).store == Run(Next, s, (first + second)[..i]).store
    {
      if i < |first| {
        assert (first + second)[..i] == first[..i];
      } else {
        var j := i - |first|;
        assert (first + second)[..i] == first + second[..j] && (first + second)[i] == second[j];
        RunAppend(Next, s, first, second[..j]);
      }
    }
  }

  lemma StoresNothing(s: System, t: System, me: nat, steps: seq<Step>, step: Step)
    requires t == Run(Next, s, steps) && StoredNothing(s, me, steps) && Next(t, step).store == t.store
    ensures StoredNothing(s, me, steps + [step])
  {
    hide Next;
    forall i | 0 <= i < |steps| + 1 && (steps + [step])[i].caller == me
      ensures Next(Run(Next, s, (steps + [step])[..i]), (steps + [step])[i]).store == Run(Next, s, (steps + [step])[..i]).store
    {
      assert (steps + [step])[..i] == steps[..i];
      if i == |steps| {
        assert steps[..i] == steps;
      }
    }
  }

  lemma TwoSteps(s: System, first: seq<Step>, s1: System, a: Step, s2: System, second: seq<Step>, s3: System, b: Step)
    requires s1 == Run(Next, s, first) && s2 == Next(s1, a) && s3 == Run(Next, s2, second)
    ensures Next(s3, b) == Run(Next, s, first + [a] + second + [b])
  {
    ExtendOne(s, s1, first, a);
    RunAppend(Next, s, first + [a], second);
    ExtendOne(s, s3, first + [a] + second, b);
  }

  function After(plan: seq<Action>, at: nat, actor: nat, report: Report, local: RunRecord): Position {
    match report
    case Starting => Calling(plan, at, actor)
    case Done(_) => Ready(plan, at + 1, actor, local)
    case Failed => Idle
    case Finished => Idle
  }

  /** The event is committed: the snapshot is the returned record, in the state it asked for. */
  ghost predicate Reported(s: System, me: nat, plan: seq<Action>, at: nat, actor: nat, report: Report, record: RunRecord) {
    && s.store.record == Some(record)
    && At(s, me) == After(plan, at, actor, report, record)
    && (report.Finished? ==> record.state.Executed?)
    && (report.Failed? ==> record.state.ExecutionFailed?)
    && (report.Starting? ==> at < |plan| && plan[at].key in record.status && record.status[plan[at].key] == Started)
    && (report.Done? ==> at < |plan| && plan[at].key in record.receipts && record.receipts[plan[at].key] == report.receipt)
  }

  lemma AppendedIsCurrent(m: Ledger, c: Change)
    ensures Accepts(m, c) ==> Append(m, c).record == Some(c.record)
  {
  }

  lemma NextIsReload(s: System, me: nat)
    requires At(s, me).Reloading?
    ensures Next(s, Step(me, ExecuteReload)) == NextReload(s, me, At(s, me))
  {
  }

  lemma NextIsReport(s: System, me: nat, c: Change)
    requires var p := At(s, me);
      && p.Reporting? && p.snap.state.Executing? && (p.report.Finished? || p.at < |p.plan|)
      && c == Draft(p.snap, ReportKind(p.report), p.actor, ReportTarget(p.report),
                    ReportedStatus(p.snap, p.plan, p.at, p.report), None)
    ensures var p := At(s, me);
      Next(s, Step(me, ExecuteReport)) ==
        if Accepts(s.store, c) then Goto(s.(store := Append(s.store, c)), me, After(p.plan, p.at, p.actor, p.report, c.record))
        else Goto(s, me, if p.tries <= 1 then Idle else Reloading(p.plan, p.at, p.actor, p.report, p.tries - 1))
  {
  }

  /** The record `execution_event` assembles field by field is the drafted one. */
  lemma AssembledDraft(latest: RunRecord, plan: seq<Action>, at: nat, actor: nat, report: Report,
                       statuses: map<Key, Status>, receipts: map<Key, nat>)
    requires report.Finished? || at < |plan|
    requires statuses == ReportedStatus(latest, plan, at, report).status
    requires receipts == ReportedStatus(latest, plan, at, report).receipts
    ensures var state := if report.Failed? then ExecutionFailed else if report.Finished? then Executed else latest.state;
      var record := latest.(status := statuses, receipts := receipts, state := state, revision := latest.revision + 1);
      Change(record, Event(record.revision, ReportKind(report), state, actor, None), latest.revision)
        == Draft(latest, ReportKind(report), actor, ReportTarget(report), ReportedStatus(latest, plan, at, report), None)
  {
  }

  lemma NextIsAction(s: System, me: nat)
    requires At(s, me).Ready?
    ensures Next(s, Step(me, ExecuteNext)) == NextAction(s, me, At(s, me))
  {
  }

  function Answered(s: System, me: nat, p: Position, answer: Option<nat>): System
    requires p.InFlight?
  {
    Goto(s, me, Reloading(p.plan, p.at, p.actor, if answer.Some? then Done(answer.value) else Failed, COMMIT_ATTEMPTS))
  }

  lemma NextIsCall(s: System, me: nat, answer: Option<nat>)
    ensures At(s, me).Calling? ==> Next(s, Step(me, Invoke)) == NextInvoke(s, me, At(s, me))
    ensures At(s, me).InFlight? ==> Next(s, Step(me, Answer(answer))) == Answered(s, me, At(s, me), answer)
  {
  }

  lemma NextIsLaunch(s: System, me: nat, factsOk: bool, evidenceOk: bool)
    ensures At(s, me).Idle? && s.store.record.Some? ==>
      Next(s, Step(me, ExecuteLoad(factsOk, evidenceOk))) == NextLaunch(s, me, factsOk, evidenceOk)
  {
  }

  lemma NextIsExecute(s: System, me: nat)
    requires At(s, me).Launching?
    ensures var p := At(s, me);
      && (p.denied ==> Next(s, Step(me, ExecuteStore)) == Store(s, me, Audit(p.snap, ExecutionDenied, 0), Idle, Idle))
      && (!p.denied && p.snap.approval.Some? && p.snap.envelope.Some? && CanTransition(p.snap.state, Executing) ==>
            Next(s, Step(me, ExecuteStore)) ==
              var c := Draft(p.snap, ExecutionStarted, p.snap.approval.value.actor, Some(Executing), p.snap, None);
              Store(s, me, c, Ready(p.snap.envelope.value.manifest.actions, 0, p.snap.approval.value.actor, c.record), Idle))
  {
  }

  lemma LaunchableTransitions(config: Config, r: RunRecord, factsOk: bool, evidenceOk: bool)
    requires MayLaunch(config, r, factsOk, evidenceOk) == Some(true)
    ensures r.approval.Some? && r.envelope.Some? && CanTransition(r.state, Executing)
  {
  }

  lemma NextIsDecide(s: System, me: nat, actor: nat, hash: BriefHash, decision: Decision, version: Option<nat>, now: int, factsOk: bool, evidenceOk: bool)
    ensures At(s, me).Idle? && s.store.record.Some? ==>
      Next(s, Step(me, DecideLoad(actor, hash, decision, version, now, factsOk, evidenceOk)))
        == NextJudge(s, me, DecideLoad(actor, hash, decision, version, now, factsOk, evidenceOk))
    ensures At(s, me).Deciding? ==> Next(s, Step(me, DecideStore)) == NextDecide(s, me, At(s, me))
  {
    hide NextJudge, NextDecide;
  }

  lemma NextIsDetect(s: System, me: nat, actor: nat, discount: nat, eligible: bool)
    ensures At(s, me).Idle? ==> Next(s, Step(me, DetectLoad(actor, discount, eligible))) == NextDetect(s, me, DetectLoad(actor, discount, eligible))
    ensures At(s, me).Creating? ==> Next(s, Step(me, DetectStore)) == NextCreate(s, me, At(s, me))
  {
    hide NextDetect, NextCreate;
  }

  lemma NextIsPriced(s: System, me: nat)
    ensures At(s, me).Idle? && s.store.record.Some? && s.store.record.value.state.ContextAssembling? ==>
      Next(s, Step(me, PriceLoad(true))) == Goto(s, me, Pricing(s.store.record.value))
    ensures At(s, me).Pricing? ==>
      Next(s, Step(me, PriceStore)) == Store(s, me, Audit(At(s, me).snap, PricingCompleted, s.config.agent), Idle, Idle)
  {
    hide Store;
  }

  lemma NextIsCommand(s: System, me: nat, actor: nat, revision: nat, key: Option<nat>, ok: bool, now: int)
    ensures At(s, me).Idle? && s.store.record.Some? && actor == s.config.approver ==>
      && Next(s, Step(me, AssembleLoad(actor, revision, key))) == Goto(s, me, Replaying(s.store.record.value, actor, revision, key, true))
      && Next(s, Step(me, RequestLoad(actor, revision, key))) == Goto(s, me, Replaying(s.store.record.value, actor, revision, key, false))
    ensures At(s, me).Replaying? ==> Next(s, Step(me, ReplayCheck(ok, now))) == NextReplay(s, me, At(s, me), ok, now)
    ensures At(s, me).Beginning? ==> Next(s, Step(me, BeginStore)) == NextBegin(s, me, At(s, me))
  {
    hide NextReplay, NextBegin;
  }

  lemma NextIsAssembly(s: System, me: nat, proposal: nat, evidence: seq<nat>, valid: bool)
    ensures At(s, me).Asking? ==> Next(s, Step(me, Proposed(proposal, evidence, valid))) == NextProposed(s, me, At(s, me), proposal, evidence, valid)
    ensures At(s, me).Asking? ==> Next(s, Step(me, Throw)) == Goto(s, me, Failing(At(s, me).actor))
    ensures At(s, me).HoldingEvidence? ==> Next(s, Step(me, EvidenceStore)) == NextEvidence(s, me, At(s, me))
  {
    hide NextProposed, NextEvidence;
  }

  lemma NextIsBrief(s: System, me: nat, body: nat, manifestId: nat, file: nat, mail: nat, factsOk: bool, acked: bool)
    ensures At(s, me).BuildingBrief? ==>
      Next(s, Step(me, PolicyStore(body, manifestId, file, mail, factsOk))) == NextPolicy(s, me, At(s, me), PolicyStore(body, manifestId, file, mail, factsOk))
    ensures At(s, me).PointingAtBrief? ==> Next(s, Step(me, BriefStore(acked))) == NextBrief(s, me, At(s, me), acked)
  {
    hide NextPolicy, NextBrief;
  }

  lemma NextIsHold(s: System, me: nat)
    ensures At(s, me).Failing? && s.store.record.Some? ==>
      Next(s, Step(me, HoldLoad)) == Goto(s, me, Withholding(s.store.record.value, At(s, me).actor))
    ensures At(s, me).Withholding? ==> var p := At(s, me);
      Next(s, Step(me, HoldStore)) ==
        StoreTo(s, me, p.snap, EvidenceHold, Draft(p.snap, EvidenceHeld, p.actor, Some(EvidenceHold), p.snap, None), Idle, Idle)
  {
    hide StoreTo, Draft;
  }

  lemma NextIsCard(s: System, me: nat, delivered: bool)
    ensures At(s, me).Requesting? ==> Next(s, Step(me, RequestStore)) == NextRequest(s, me, At(s, me))
    ensures At(s, me).SendingCard? ==>
      Next(s, Step(me, CardAnswer(delivered))) == Goto(s, me, CardAnswered(At(s, me).snap, At(s, me).actor, delivered))
    ensures At(s, me).CardAnswered? ==> Next(s, Step(me, CardStore)) == NextCard(s, me, At(s, me))
  {
    hide NextRequest, NextCard;
  }

  lemma LaterVersions(s: System, t: System)
    requires History.Later(s, t) && s.store.record.Some?
    ensures t.store.record.Some? && NextVersion(s.store.record.value.envelope) <= NextVersion(t.store.record.value.envelope)
  {
  }

  /** The record that waits for a decision: the package is the one that was verified. */
  predicate Requested(before: RunRecord, r: RunRecord, revision: nat, packageOk: bool, now: int) {
    && before.revision == revision && VerifyPackage(before, packageOk, packageOk).Sound?
    && revision < r.revision && r == before.(state := AwaitingApproval, requestedAt := Some(now), revision := r.revision)
  }

  /** The log holds the event of this command. */
  ghost predicate WasIssued(log: seq<Event>, kind: EventType, key: nat, revision: nat) {
    exists i :: 0 <= i < |log| && log[i].kind == kind && log[i].command == Some(Command(key, revision))
  }

  lemma IssuedAlong(s: System, steps: seq<Step>, kind: EventType, key: Option<nat>, revision: nat)
    ensures Inv(s) && key.Some? && WasIssued(s.store.log, kind, key.value, revision) ==>
      WasIssued(Run(Next, s, steps).store.log, kind, key.value, revision)
  {
    hide Inv, Next, Run, WasIssued;
    InvAlong(s, steps);
    if Inv(s) && key.Some? && WasIssued(s.store.log, kind, key.value, revision) {
      IssuedStays(s.store.log, Run(Next, s, steps).store.log, kind, key.value, revision);
    }
  }

  lemma IssuedStays(log: seq<Event>, later: seq<Event>, kind: EventType, key: nat, revision: nat)
    requires log <= later && WasIssued(log, kind, key, revision)
    ensures WasIssued(later, kind, key, revision)
  {
    var i :| 0 <= i < |log| && log[i].kind == kind && log[i].command == Some(Command(key, revision));
    assert later[i] == log[i];
  }

  lemma FirstIsAccepted(m: Ledger, c: Change)
    requires c.expected == 0 && c.record.revision == 1 && c.event.sequence == 1 && c.event.kind.RunDetected?
    ensures m.record.None? ==> Accepts(m, c)
  {
  }

  lemma IssuedNow(m: Ledger, c: Change, key: nat, revision: nat)
    requires Accepts(m, c) && c.event.command == Some(Command(key, revision))
    ensures WasIssued(Append(m, c).log, c.event.kind, key, revision)
  {
    assert Append(m, c).log[|m.log|] == c.event;
  }

  /** What a newly built package holds: the file and the mail, each under its own kind and key. */
  predicate Planned(r: RunRecord, body: nat, manifestId: nat, file: nat, mail: nat) {
    && r.envelope.Some?
    && var e := r.envelope.value;
    && e.brief.body == body && e.brief.manifestId == manifestId && e.brief.version == r.briefVersion
    && |e.manifest.actions| == 2
    && e.manifest.actions[0].kind == CreateFile && e.manifest.actions[0].content == file
    && e.manifest.actions[0].key.kind == CreateFile && e.manifest.actions[0].key.version == e.brief.version
    && e.manifest.actions[1].kind == SendMail && e.manifest.actions[1].content == mail
    && e.manifest.actions[1].key.kind == SendMail && e.manifest.actions[1].key.version == e.brief.version
  }

  /** The package that `assemble` returns is one that `verify_package` accepts. */
  lemma BuiltIsSound(r: RunRecord, body: nat, manifestId: nat, file: nat, mail: nat, t: RunRecord)
    requires BuildBrief(r, body, manifestId, file, mail).Ok? && r.proposal.Some?
    requires var e := BuildBrief(r, body, manifestId, file, mail).value;
      t.envelope == Some(e) && t.briefHash == Some(e.hash) && t.briefVersion == e.brief.version && t.evidence == r.evidence && t.proposal == r.proposal
    ensures VerifyPackage(t, true, true) == Sound && t.briefVersion == NextVersion(r.envelope)
    ensures Planned(t, body, manifestId, file, mail)
  {
  }

  class Controller {
    const config: Config
    var store: Ledger
    var callers: map<nat, Position>
    var calls: seq<Call>

    constructor (config: Config)
      ensures State() == Initial(config)
    {
      this.config := config;
      store, callers, calls := EMPTY, map[], [];
    }

    function State(): System
      reads this
    {
      System(config, store, callers, calls)
    }

    /** The other callers run; this one stays where it is. */
    method Await(me: nat, others: seq<Step>)
      requires forall i :: 0 <= i < |others| ==> others[i].caller != me
      modifies this
      ensures State() == Run(Next, old(State()), others)
      ensures At(State(), me) == old(At(State(), me))
    {
      OthersLeaveMe(State(), me, others);
      var s := Run(Next, State(), others);
      store, callers, calls := s.store, s.callers, s.calls;
    }

    /** The commit half of an attempt: the new status and receipt, on top of the snapshot read. */
    method CommitReport(me: nat, plan: seq<Action>, at: nat, actor: nat, report: Report, tries: nat, latest: RunRecord)
      returns (r: Option<RunRecord>)
      requires (report.Finished? || at < |plan|) && tries > 0 && latest.state.Executing?
      requires At(State(), me) == Reporting(plan, at, actor, report, tries, latest)
      modifies this
      ensures State() == Next(old(State()), Step(me, ExecuteReport))
      ensures r.Some? ==> Reported(State(), me, plan, at, actor, report, r.value)
      ensures r.None? ==> At(State(), me) == if tries == 1 then Idle else Reloading(plan, at, actor, report, tries - 1)
      ensures r.None? ==> store == old(store)
    {
      hide Next, Accepts, Append;
      var statuses, receipts := latest.status, latest.receipts;
      if report.Starting? {
        statuses := statuses[plan[at].key := Started];
      } else if report.Done? {
        statuses := statuses[plan[at].key := Completed];
        receipts := receipts[plan[at].key := report.receipt];
      } else if report.Failed? {
        statuses := statuses[plan[at].key := Unknown];
      }
      var state := if report.Failed? then ExecutionFailed else if report.Finished? then Executed else latest.state;
      var record := latest.(status := statuses, receipts := receipts, state := state, revision := latest.revision + 1);
      var change := Change(record, Event(record.revision, ReportKind(report), state, actor, None), latest.revision);
      AssembledDraft(latest, plan, at, actor, report, statuses, receipts);
      NextIsReport(State(), me, change);
      AppendedIsCurrent(store, change);
      if Accepts(store, change) {
        store := Append(store, change);
        callers := callers[me := After(plan, at, actor, report, record)];
        r := Some(record);
      } else {
        callers := callers[me := if tries == 1 then Idle else Reloading(plan, at, actor, report, tries - 1)];
        r := None;
      }
    }

    /** One attempt: read the snapshot, add the status and the receipt, commit. Some(result) is
        the end of the event, None a lost race. */
    method Attempt(me: nat, plan: seq<Action>, at: nat, actor: nat, report: Report, tries: nat, env: Interference, clock: nat)
      returns (r: Option<Result<RunRecord, Failure>>, ghost trace: seq<Step>)
      requires LeavesMeAlone(me, env) && (report.Finished? || at < |plan|) && tries > 0
      requires At(State(), me) == Reloading(plan, at, actor, report, tries)
      modifies this
      ensures State() == Run(Next, old(State()), trace)
      ensures r.Some? && r.value.Ok? ==> Reported(State(), me, plan, at, actor, report, r.value.value)
      ensures r.Some? && r.value.Err? ==> At(State(), me) == Idle
      ensures r.None? ==> At(State(), me) == if tries == 1 then Idle else Reloading(plan, at, actor, report, tries - 1)
      ensures r.None? || r.value.Err? ==> StoredNothing(old(State()), me, trace)
    {
      hide Next, Reported, StoredNothing;
      Await(me, env(clock));
      ghost var s1 := State();
      NextIsReload(s1, me);
      OthersStoreNothing(old(State()), me, env(clock));
      StoresNothing(old(State()), s1, me, env(clock), Step(me, ExecuteReload));
      if store.record.None? || !store.record.value.state.Executing? {
        callers := callers[me := Idle];
        ExtendOne(old(State()), s1, env(clock), Step(me, ExecuteReload));
        return Some(Err(if store.record.None? then KeyError else DeniedError)), env(clock) + [Step(me, ExecuteReload)];
      }
      var latest := store.record.value;
      callers := callers[me := Reporting(plan, at, actor, report, tries, latest)];
      ghost var s2 := State();
      Await(me, env(clock + 1));
      ghost var s3 := State();
      var committed := CommitReport(me, plan, at, actor, report, tries, latest);
      r := if committed.Some? then Some(Ok(committed.value)) else None;
      trace := env(clock) + [Step(me, ExecuteReload)] + env(clock + 1) + [Step(me, ExecuteReport)];
      TwoSteps(old(State()), env(clock), s1, Step(me, ExecuteReload), s2, env(clock + 1), s3, Step(me, ExecuteReport));
      if committed.None? {
        OthersStoreNothing(s2, me, env(clock + 1));
        BothStoreNothing(old(State()), s2, me, env(clock) + [Step(me, ExecuteReload)], env(clock + 1));
        Extend(old(State()), s2, env(clock) + [Step(me, ExecuteReload)], s3, env(clock + 1));
        StoresNothing(old(State()), s3, me, env(clock) + [Step(me, ExecuteReload)] + env(clock + 1), Step(me, ExecuteReport));
      }
    }

    /** At most five attempts to add one event and its status; only the commit is retried. */
    method ExecutionEvent(me: nat, plan: seq<Action>, at: nat, actor: nat, report: Report, env: Interference, clock: nat)
      returns (r: Result<RunRecord, Failure>, tick: nat, ghost trace: seq<Step>)
      requires LeavesMeAlone(me, env) && (report.Finished? || at < |plan|)
      requires At(State(), me) == Reloading(plan, at, actor, report, COMMIT_ATTEMPTS)
      modifies this
      ensures State() == Run(Next, old(State()), trace)
      ensures r.Ok? ==> Reported(State(), me, plan, at, actor, report, r.value)
      ensures r.Err? ==> At(State(), me) == Idle && StoredNothing(old(State()), me, trace)
    {
      hide Next, StoredNothing;
      tick, trace := clock, [];
      OthersStoreNothing(State(), me, []);
      for attempt := 0 to COMMIT_ATTEMPTS
        invariant At(State(), me) ==
          if attempt < COMMIT_ATTEMPTS then Reloading(plan, at, actor, report, COMMIT_ATTEMPTS - attempt) else Idle
        invariant State() == Run(Next, old(State()), trace) && StoredNothing(old(State()), me, trace)
      {
        ghost var s, more := State(), [];
        var end;
        end, more := Attempt(me, plan, at, actor, report, COMMIT_ATTEMPTS - attempt, env, tick);
        Extend(old(State()), s, trace, State(), more);
        if end.None? || end.value.Err? {
          BothStoreNothing(old(State()), s, me, trace, more);
        }
        trace, tick := trace + more, tick + 2;
        if end.Some? {
          return end.value, tick, trace;
        }
      }
      return Err(ConflictError), tick, trace;
    }

    // -------------------------------------------------------------- record, detect

    /** `record`: the next snapshot and its event, committed together or not at all. */
    method Record(prior: RunRecord, kind: EventType, actor: nat, target: Option<RunState>, updated: RunRecord, command: Option<Command>)
      returns (r: Result<RunRecord, Failure>)
      modifies this`store
      ensures var c := Draft(prior, kind, actor, target, updated, command);
        if target.Some? && !CanTransition(prior.state, target.value) then r == Err(DeniedError) && store == old(store)
        else if Accepts(old(store), c) then r == Ok(c.record) && store == Append(old(store), c) && store.record == Some(c.record)
        else r == Err(ConflictError) && store == old(store)
    {
      hide Accepts, Append, CanTransition;
      var state := if target.Some? then target.value else prior.state;
      if target.Some? && !CanTransition(prior.state, target.value) {
        return Err(DeniedError);
      }
      var record := updated.(state := state, revision := prior.revision + 1);
      var change := Change(record, Event(record.revision, kind, state, actor, command), prior.revision);
      AppendedIsCurrent(store, change);
      if Accepts(store, change) {
        store := Append(store, change);
        r := Ok(record);
      } else {
        r := Err(ConflictError);
      }
    }

    /** `detect`: the Run as it is stored, created if it was not there. */
    method Detect(me: nat, actor: nat, discount: nat, eligible: bool, env: Interference)
      returns (r: Result<RunRecord, Failure>, ghost trace: seq<Step>)
      requires LeavesMeAlone(me, env) && At(State(), me) == Idle
      modifies this
      ensures State() == Run(Next, old(State()), trace) && At(State(), me) == Idle
      ensures actor != config.approver ==> r == Err(DeniedError) && State() == old(State())
      ensures r.Ok? ==> store.record == Some(r.value)
      ensures r.Ok? ==> old(store.record) == Some(r.value) || eligible
      ensures old(store.record.None?) && env(0) == [] ==> (r.Ok? <==> actor == config.approver && eligible)
      ensures r.Ok? && old(store.record.None?) && env(0) == [] ==>
        r.value == RunRecord(config.runId, Detected, 0, None, 1, discount, None, None, [], None, map[], map[], None)
    {
      hide Next, Accepts, Append, Run;
      ghost var s0 := State();
      EmptyRun(s0);
      trace := [];
      if actor != config.approver {
        return Err(DeniedError), trace;
      }
      if store.record.Some? {
        return Ok(store.record.value), trace;
      }
      if !eligible {
        return Err(DeniedError), trace;
      }
      NextIsDetect(s0, me, actor, discount, eligible);
      ExtendOne(s0, s0, [], Step(me, DetectLoad(actor, discount, eligible)));
      trace := [] + [Step(me, DetectLoad(actor, discount, eligible))];
      var draft := RunRecord(config.runId, Detected, 0, None, 1, discount, None, None, [], None, map[], map[], None);
      callers := callers[me := Creating(draft, actor)];
      ghost var s1 := State();

      Await(me, env(0));
      Extend(s0, s1, trace, State(), env(0));
      trace := trace + env(0);
      NextIsDetect(State(), me, actor, discount, eligible);
      ExtendOne(s0, State(), trace, Step(me, DetectStore));
      trace := trace + [Step(me, DetectStore)];
      var change := Change(draft, Event(1, RunDetected, Detected, actor, None), 0);
      EmptyRun(s1);
      FirstIsAccepted(store, change);
      AppendedIsCurrent(store, change);
      AppendRefused(store, change);
      callers := callers[me := Idle];
      store := Append(store, change);
      r := if store.record.Some? then Ok(store.record.value) else Err(KeyError);
    }

    // -------------------------------------------------------------- pricing

    /** `pricing`: the agent's callback during an assembly; it adds its audit event and nothing else. */
    method PriceRun(me: nat, bound: bool, env: Interference) returns (r: Result<RunRecord, Failure>, ghost trace: seq<Step>)
      requires LeavesMeAlone(me, env) && At(State(), me) == Idle
      modifies this
      ensures State() == Run(Next, old(State()), trace) && At(State(), me) == Idle
      ensures old(store.record.None?) ==> r == Err(KeyError) && State() == old(State())
      ensures r.Ok? ==> old(store.record.Some?)
      ensures r.Ok? ==> bound && old(store.record.value.state.ContextAssembling?)
      ensures r.Ok? ==> store.record == Some(r.value) && r.value == old(store.record.value).(revision := r.value.revision)
    {
      hide Next, Accepts, Append, Run;
      ghost var s0 := State();
      EmptyRun(s0);
      if store.record.None? {
        return Err(KeyError), [];
      }
      var record := store.record.value;
      if !bound || !record.state.ContextAssembling? {
        return Err(DeniedError), [];
      }
      NextIsPriced(s0, me);
      ExtendOne(s0, s0, [], Step(me, PriceLoad(true)));
      trace := [] + [Step(me, PriceLoad(true))];
      callers := callers[me := Pricing(record)];
      ghost var s1 := State();

      Await(me, env(0));
      Extend(s0, s1, trace, State(), env(0));
      trace := trace + env(0);
      NextIsPriced(State(), me);
      ExtendOne(s0, State(), trace, Step(me, PriceStore));
      trace := trace + [Step(me, PriceStore)];
      r := Record(record, PricingCompleted, config.agent, None, record, None);
      callers := callers[me := Idle];
    }

    // -------------------------------------------------------------- assemble

    /** `command_replayed`: the first event that claimed the key. */
    method CommandReplayed(kind: EventType, key: nat) returns (r: Option<Command>)
      ensures r == Claimed(store.log, kind, key)
      ensures r.Some? ==> r.value.key == key && WasIssued(store.log, kind, key, r.value.revision)
      ensures r.None? ==> forall revision :: !WasIssued(store.log, kind, key, revision)
    {
      for i := 0 to |store.log|
        invariant forall j :: 0 <= j < i && store.log[j].kind == kind && store.log[j].command.Some? ==> store.log[j].command.value.key != key
        invariant Claimed(store.log, kind, key) == Claimed(store.log[i..], kind, key)
      {
        assert store.log[i..][0] == store.log[i] && store.log[i..][1..] == store.log[i + 1..];
        if store.log[i].kind == kind && store.log[i].command.Some? && store.log[i].command.value.key == key {
          return store.log[i].command;
        }
      }
      assert store.log[|store.log|..] == [];
      return None;
    }

    /** A command that was claimed before is not issued again; a new one must have read the current revision. */
    method Replay(me: nat, snap: RunRecord, actor: nat, revision: nat, key: Option<nat>, assembling: bool)
      returns (r: Result<bool, Failure>)
      ensures r == var kind := if assembling then AgentStarted else ApprovalRequested;
        if key.Some? && Claimed(store.log, kind, key.value).Some?
        then (if Claimed(store.log, kind, key.value).value.revision == revision then Ok(true) else Err(ConflictError))
        else if snap.revision != revision then Err(ConflictError)
        else Ok(false)
      ensures r == Ok(true) ==> key.Some? && WasIssued(store.log, if assembling then AgentStarted else ApprovalRequested, key.value, revision)
    {
      if key.Some? {
        var claimed := CommandReplayed(if assembling then AgentStarted else ApprovalRequested, key.value);
        if claimed.Some? {
          return if claimed.value.revision == revision then Ok(true) else Err(ConflictError);
        }
      }
      return if snap.revision != revision then Err(ConflictError) else Ok(false);
    }

    /** The claimed command and the commit that starts the agent: Some is a repeated command's snapshot, None a start. */
    method Begin(me: nat, actor: nat, revision: nat, key: Option<nat>, env: Interference)
      returns (r: Result<Option<RunRecord>, Failure>, ghost trace: seq<Step>)
      requires LeavesMeAlone(me, env) && At(State(), me) == Idle && store.record.Some? && actor == config.approver
      modifies this
      ensures State() == Run(Next, old(State()), trace)
      ensures r == Ok(None) ==> At(State(), me) == Asking(actor) && old(store.record.value.revision) == revision
      ensures r == Ok(None) ==> store.record.Some? && store.record.value.state.ContextAssembling?
      ensures r.Ok? && r.value.Some? ==> r.value == old(store.record) && key.Some?
      ensures r.Ok? && key.Some? ==> WasIssued(store.log, AgentStarted, key.value, revision)
      ensures r != Ok(None) ==> At(State(), me) == Idle
    {
      hide Next, Accepts, Append, Run, CanTransition, VerifyPackage, Claimed, WasIssued;
      ghost var s0 := State();
      EmptyRun(s0);
      var record := store.record.value;
      NextIsCommand(s0, me, actor, revision, key, true, 0);
      ExtendOne(s0, s0, [], Step(me, AssembleLoad(actor, revision, key)));
      trace := [] + [Step(me, AssembleLoad(actor, revision, key))];
      callers := callers[me := Replaying(record, actor, revision, key, true)];
      ghost var s1 := State();

      Await(me, env(0));
      Extend(s0, s1, trace, State(), env(0));
      trace := trace + env(0);
      NextIsCommand(State(), me, actor, revision, key, true, 0);
      ExtendOne(s0, State(), trace, Step(me, ReplayCheck(true, 0)));
      trace := trace + [Step(me, ReplayCheck(true, 0))];
      var replayed := Replay(me, record, actor, revision, key, true);
      if replayed != Ok(false) {
        callers := callers[me := Idle];
        r := if replayed.Ok? then Ok(Some(record)) else Err(ConflictError);
        return;
      }
      var command := if key.Some? then Some(Command(key.value, revision)) else None;
      callers := callers[me := Beginning(record, actor, command)];
      ghost var s2 := State();

      Await(me, env(1));
      Extend(s0, s2, trace, State(), env(1));
      trace := trace + env(1);
      NextIsCommand(State(), me, actor, revision, key, true, 0);
      ExtendOne(s0, State(), trace, Step(me, BeginStore));
      trace := trace + [Step(me, BeginStore)];
      ghost var before := store;
      var started := Record(record, AgentStarted, actor, Some(ContextAssembling), record, command);
      if started.Ok? && key.Some? {
        IssuedNow(before, Draft(record, AgentStarted, actor, Some(ContextAssembling), record, command), key.value, revision);
      }
      callers := callers[me := if started.Ok? then Asking(actor) else Idle];
      r := if started.Ok? then Ok(None) else Err(started.error);
    }

    /** The agent is asked, and its evidence persisted; Err(DeniedError) is what leads to a hold. */
    method Investigate(me: nat, actor: nat, proposed: Option<(nat, seq<nat>)>, valid: bool, env: Interference)
      returns (r: Result<RunRecord, Failure>, ghost trace: seq<Step>)
      requires LeavesMeAlone(me, env) && At(State(), me) == Asking(actor)
      modifies this
      ensures State() == Run(Next, old(State()), trace)
      ensures r.Ok? ==> At(State(), me) == BuildingBrief(r.value, actor) && r.value.proposal.Some? && store.record == Some(r.value)
      ensures r.Ok? ==> proposed.Some? && valid && r.value.proposal == Some(proposed.value.0) && r.value.evidence == proposed.value.1
      ensures r == Err(DeniedError) ==> At(State(), me) == Failing(actor)
      ensures r.Err? && r != Err(DeniedError) ==> At(State(), me) == Idle
    {
      hide Next, Accepts, Append, Run, CanTransition;
      ghost var s0 := State();
      EmptyRun(s0);
      Await(me, env(2));
      trace := env(2);
      var proposal, evidence := 0, [];
      if proposed.Some? {
        proposal, evidence := proposed.value.0, proposed.value.1;
      }
      NextIsAssembly(State(), me, proposal, evidence, valid);
      if proposed.None? {
        ExtendOne(s0, State(), trace, Step(me, Throw));
        trace := trace + [Step(me, Throw)];
        callers := callers[me := Failing(actor)];
        return Err(DeniedError), trace;
      }
      ExtendOne(s0, State(), trace, Step(me, Proposed(proposal, evidence, valid)));
      trace := trace + [Step(me, Proposed(proposal, evidence, valid))];
      if store.record.None? || !store.record.value.state.ContextAssembling? {
        callers := callers[me := Idle];
        return Err(if store.record.None? then KeyError else ConflictError), trace;
      }
      if !valid {
        callers := callers[me := Failing(actor)];
        return Err(DeniedError), trace;
      }
      var record := store.record.value;
      callers := callers[me := HoldingEvidence(record, actor, proposal, evidence)];
      ghost var s1 := State();

      Await(me, env(3));
      Extend(s0, s1, trace, State(), env(3));
      trace := trace + env(3);
      NextIsAssembly(State(), me, proposal, evidence, valid);
      ExtendOne(s0, State(), trace, Step(me, EvidenceStore));
      trace := trace + [Step(me, EvidenceStore)];
      r := Record(record, EvidenceValidated, actor, Some(ContextAssembled),
                  record.(proposal := Some(proposal), evidence := evidence), None);
      callers := callers[me := if r.Ok? then BuildingBrief(r.value, actor) else if r == Err(DeniedError) then Failing(actor) else Idle];
    }

    /** The brief is built, persisted, and made current; a lost acknowledgement raises as well. */
    method Version(me: nat, actor: nat, snap: RunRecord, body: nat, manifestId: nat, file: nat, mail: nat, factsOk: bool, acked: bool, env: Interference)
      returns (r: Result<RunRecord, Failure>, ghost trace: seq<Step>)
      requires LeavesMeAlone(me, env) && At(State(), me) == BuildingBrief(snap, actor) && snap.proposal.Some?
      modifies this
      ensures State() == Run(Next, old(State()), trace)
      ensures r.Ok? ==> At(State(), me) == Idle && store.record == Some(r.value)
      ensures r.Ok? ==> factsOk && VerifyPackage(r.value, true, true) == Sound && r.value.state.PolicyVerified? && r.value.briefVersion == NextVersion(snap.envelope)
      ensures r.Ok? ==> Planned(r.value, body, manifestId, file, mail) && r.value.proposal == snap.proposal && r.value.evidence == snap.evidence
      ensures r == Err(DeniedError) ==> At(State(), me) == Failing(actor)
      ensures r.Err? && r != Err(DeniedError) ==> At(State(), me) == Idle
    {
      hide Next, Accepts, Append, Run, CanTransition, VerifyPackage, BuildBrief, NextVersion, Planned;
      ghost var s0 := State();
      EmptyRun(s0);
      Await(me, env(4));
      trace := env(4);
      NextIsBrief(State(), me, body, manifestId, file, mail, factsOk, acked);
      ExtendOne(s0, State(), trace, Step(me, PolicyStore(body, manifestId, file, mail, factsOk)));
      trace := trace + [Step(me, PolicyStore(body, manifestId, file, mail, factsOk))];
      var built := BuildBrief(snap, body, manifestId, file, mail);
      if !factsOk || built.Err? {
        callers := callers[me := Failing(actor)];
        return Err(DeniedError), trace;
      }
      var envelope := built.value;
      r := Record(snap, PolicyVerifiedEvent, actor, Some(PolicyVerified), snap.(envelope := Some(envelope)), None);
      callers := callers[me := if r.Ok? then PointingAtBrief(r.value, actor) else if r == Err(DeniedError) then Failing(actor) else Idle];
      if r.Err? {
        return;
      }
      var verified := r.value;
      ghost var s1 := State();

      Await(me, env(5));
      Extend(s0, s1, trace, State(), env(5));
      trace := trace + env(5);
      NextIsBrief(State(), me, body, manifestId, file, mail, factsOk, acked);
      ExtendOne(s0, State(), trace, Step(me, BriefStore(acked)));
      trace := trace + [Step(me, BriefStore(acked))];
      r := Record(verified, BriefVersioned, actor, None,
                  verified.(briefVersion := envelope.brief.version, briefHash := Some(envelope.hash)), None);
      callers := callers[me := if r.Ok? && !acked then Failing(actor) else Idle];
      if r.Ok? {
        BuiltIsSound(snap, body, manifestId, file, mail, r.value);
        if !acked {
          r := Err(DeniedError);
        }
      }
    }

    /** Whatever else raised leaves the Run on hold, if its state still allows that. */
    method Hold(me: nat, actor: nat, env: Interference) returns (held: Result<RunRecord, Failure>, ghost trace: seq<Step>)
      requires LeavesMeAlone(me, env) && At(State(), me) == Failing(actor)
      modifies this
      ensures State() == Run(Next, old(State()), trace)
      ensures held.Ok? ==> store.record == Some(held.value) && held.value.state.EvidenceHold?
      ensures At(State(), me) == Idle || (held == Err(KeyError) && store.record.None?)
    {
      hide Next, Accepts, Append, Run, CanTransition;
      ghost var s0 := State();
      EmptyRun(s0);
      Await(me, env(6));
      trace := env(6);
      NextIsHold(State(), me);
      if store.record.None? {
        return Err(KeyError), trace;
      }
      ExtendOne(s0, State(), trace, Step(me, HoldLoad));
      trace := trace + [Step(me, HoldLoad)];
      var current := store.record.value;
      callers := callers[me := Withholding(current, actor)];
      ghost var s1 := State();

      Await(me, env(7));
      Extend(s0, s1, trace, State(), env(7));
      trace := trace + env(7);
      NextIsHold(State(), me);
      ExtendOne(s0, State(), trace, Step(me, HoldStore));
      trace := trace + [Step(me, HoldStore)];
      held := Record(current, EvidenceHeld, actor, Some(EvidenceHold), current, None);
      callers := callers[me := Idle];
    }

    /** `assemble`: what returns is either a repeated command's snapshot or the stored record of a
        whole package of a new version, which `verify_package` accepts. */
    method Assemble(me: nat, actor: nat, revision: nat, key: Option<nat>, proposed: Option<(nat, seq<nat>)>, valid: bool,
                    body: nat, manifestId: nat, file: nat, mail: nat, factsOk: bool, acked: bool, env: Interference)
      returns (r: Result<RunRecord, Failure>, ghost trace: seq<Step>)
      requires LeavesMeAlone(me, env) && At(State(), me) == Idle && Inv(State())
      modifies this
      ensures State() == Run(Next, old(State()), trace) && Inv(State()) && At(State(), me) == Idle
      ensures old(store.record.None?) ==> r == Err(if actor == config.approver then KeyError else DeniedError) && State() == old(State())
      ensures actor != config.approver ==> r == Err(DeniedError) && State() == old(State())
      ensures r.Ok? ==> old(store.record.Some?)
      ensures r.Ok? && key.Some? ==> WasIssued(store.log, AgentStarted, key.value, revision)
      ensures r.Ok? && !(key.Some? && r.value == old(store.record.value)) ==>
        && store.record == Some(r.value) && r.value.state.PolicyVerified?
        && VerifyPackage(r.value, true, true) == Sound && proposed.Some? && valid && factsOk
        && r.value.proposal == Some(proposed.value.0) && r.value.evidence == proposed.value.1
        && Planned(r.value, body, manifestId, file, mail)
        && old(store.record.value.revision) == revision && NextVersion(old(store.record.value.envelope)) <= r.value.briefVersion
    {
      hide Next, Inv, VerifyPackage, NextVersion, Run, History.Later, Planned, WasIssued;
      ghost var s0 := State();
      EmptyRun(s0);
      trace := [];
      if actor != config.approver {
        return Err(DeniedError), trace;
      }
      if store.record.None? {
        return Err(KeyError), trace;
      }
      var begun;
      begun, trace := Begin(me, actor, revision, key, env);
      InvAlong(s0, trace);
      if begun.Err? {
        return Err(begun.error), trace;
      }
      if begun.value.Some? {
        return Ok(begun.value.value), trace;
      }
      ghost var t, more := State(), [];
      var validated;
      validated, more := Investigate(me, actor, proposed, valid, env);
      IssuedAlong(t, more, AgentStarted, key, revision);
      Extend(s0, t, trace, State(), more);
      trace := trace + more;
      InvAlong(s0, trace);
      LaterVersions(s0, State());
      if validated.Ok? {
        t := State();
        r, more := Version(me, actor, validated.value, body, manifestId, file, mail, factsOk, acked, env);
        IssuedAlong(t, more, AgentStarted, key, revision);
        Extend(s0, t, trace, State(), more);
        trace := trace + more;
      } else {
        r := Err(validated.error);
      }
      if r == Err(DeniedError) {
        t := State();
        var held;
        held, more := Hold(me, actor, env);
        Extend(s0, t, trace, State(), more);
        trace := trace + more;
        r := Err(DeniedError);
      }
      InvAlong(s0, trace);
      LaterVersions(s0, State());
    }

    // -------------------------------------------------------------- request_approval

    /** The checks on a request, and its commit. Some is a repeated command's snapshot, None a card to send. */
    method BeginRequest(me: nat, actor: nat, revision: nat, key: Option<nat>, packageOk: bool, now: int, env: Interference)
      returns (r: Result<Option<RunRecord>, Failure>, ghost trace: seq<Step>)
      requires LeavesMeAlone(me, env) && At(State(), me) == Idle && store.record.Some? && actor == config.approver
      modifies this
      ensures State() == Run(Next, old(State()), trace)
      ensures r == Ok(None) ==> At(State(), me).SendingCard? && store.record == Some(At(State(), me).snap) && At(State(), me).actor == actor
      ensures r == Ok(None) ==> Requested(old(store.record.value), At(State(), me).snap, revision, packageOk, now)
      ensures r.Ok? && r.value.Some? ==> r.value == old(store.record) && key.Some?
      ensures r.Ok? && key.Some? ==> WasIssued(store.log, ApprovalRequested, key.value, revision)
      ensures r != Ok(None) ==> At(State(), me) == Idle
    {
      hide Next, Accepts, Append, Run, CanTransition, VerifyPackage, Claimed, WasIssued;
      ghost var s0 := State();
      EmptyRun(s0);
      var record := store.record.value;
      NextIsCommand(s0, me, actor, revision, key, packageOk, now);
      ExtendOne(s0, s0, [], Step(me, RequestLoad(actor, revision, key)));
      trace := [] + [Step(me, RequestLoad(actor, revision, key))];
      callers := callers[me := Replaying(record, actor, revision, key, false)];
      ghost var s1 := State();

      Await(me, env(0));
      Extend(s0, s1, trace, State(), env(0));
      trace := trace + env(0);
      NextIsCommand(State(), me, actor, revision, key, packageOk, now);
      ExtendOne(s0, State(), trace, Step(me, ReplayCheck(packageOk, now)));
      trace := trace + [Step(me, ReplayCheck(packageOk, now))];
      callers := callers[me := Idle];
      var replayed := Replay(me, record, actor, revision, key, false);
      if replayed != Ok(false) {
        r := if replayed.Ok? then Ok(Some(record)) else Err(ConflictError);
        return;
      }
      if record.envelope.None? {
        return Err(ConflictError), trace;
      }
      var package := VerifyPackage(record, packageOk, packageOk);
      if !package.Sound? {
        return Err(if package.Unbound? then BindingRaised else DeniedError), trace;
      }
      var command := if key.Some? then Some(Command(key.value, revision)) else None;
      callers := callers[me := Requesting(record, actor, command, now)];
      ghost var s2, more := State(), [];
      var waiting;
      waiting, more := CommitRequest(me, record, actor, command, now, env);
      Extend(s0, s2, trace, State(), more);
      trace := trace + more;
      r := if waiting.Ok? then Ok(None) else Err(waiting.error);
    }

    method CommitRequest(me: nat, record: RunRecord, actor: nat, command: Option<Command>, now: int, env: Interference)
      returns (r: Result<RunRecord, Failure>, ghost trace: seq<Step>)
      requires LeavesMeAlone(me, env) && At(State(), me) == Requesting(record, actor, command, now)
      modifies this
      ensures State() == Run(Next, old(State()), trace)
      ensures r.Ok? ==> At(State(), me) == SendingCard(r.value, actor) && store.record == Some(r.value)
      ensures r.Ok? ==> r.value == record.(state := AwaitingApproval, requestedAt := Some(now), revision := record.revision + 1)
      ensures r.Ok? && command.Some? ==> WasIssued(store.log, ApprovalRequested, command.value.key, command.value.revision)
      ensures r.Err? ==> At(State(), me) == Idle
    {
      hide Next, Accepts, Append, Run, CanTransition, WasIssued, VerifyPackage, Claimed, NextReplay;
      ghost var s0 := State();
      EmptyRun(s0);
      Await(me, env(1));
      trace := env(1);
      NextIsCard(State(), me, true);
      ExtendOne(s0, State(), trace, Step(me, RequestStore));
      trace := trace + [Step(me, RequestStore)];
      ghost var before, drafted := store, record.(requestedAt := Some(now));
      r := Record(record, ApprovalRequested, actor, Some(AwaitingApproval), record.(requestedAt := Some(now)), command);
      if r.Ok? && command.Some? {
        IssuedNow(before, Draft(record, ApprovalRequested, actor, Some(AwaitingApproval), drafted, command), command.value.key, command.value.revision);
      }
      callers := callers[me := if r.Ok? then SendingCard(r.value, actor) else Idle];
    }

    /** `request_approval`: the request is committed before the card is sent; a card that could not
        be delivered puts the Run on hold. */
    method RequestApproval(me: nat, actor: nat, revision: nat, key: Option<nat>, packageOk: bool, now: int, delivered: bool, env: Interference)
      returns (r: Result<RunRecord, Failure>, ghost trace: seq<Step>)
      requires LeavesMeAlone(me, env) && At(State(), me) == Idle
      modifies this
      ensures State() == Run(Next, old(State()), trace) && At(State(), me) == Idle
      ensures old(store.record.None?) ==> r == Err(if actor == config.approver then KeyError else DeniedError) && State() == old(State())
      ensures actor != config.approver ==> r == Err(DeniedError) && State() == old(State())
      ensures r.Ok? ==> old(store.record.Some?)
      ensures r.Ok? && key.Some? && old(Inv(State())) ==> WasIssued(store.log, ApprovalRequested, key.value, revision)
      ensures r.Ok? && !(key.Some? && r.value == old(store.record.value)) ==>
        store.record == Some(r.value) && delivered
        && Requested(old(store.record.value), r.value, revision, packageOk, now)
      ensures old(Inv(State())) ==> Inv(State())
    {
      hide Next, Inv, Accepts, Append, Run, CanTransition, VerifyPackage, WasIssued, History.Later;
      ghost var s0 := State();
      EmptyRun(s0);
      InvAlong(s0, []);
      if actor != config.approver {
        return Err(DeniedError), [];
      }
      if store.record.None? {
        return Err(KeyError), [];
      }
      var begun;
      begun, trace := BeginRequest(me, actor, revision, key, packageOk, now, env);
      InvAlong(s0, trace);
      if begun.Err? {
        return Err(begun.error), trace;
      }
      if begun.value.Some? {
        return Ok(begun.value.value), trace;
      }
      ghost var t, more := State(), [];
      r, more := SendCard(me, store.record.value, actor, delivered, env);
      IssuedAlong(t, more, ApprovalRequested, key, revision);
      Extend(s0, t, trace, State(), more);
      trace := trace + more;
      InvAlong(s0, trace);
    }

    /** The card goes out; whether it was delivered is committed on the snapshot that waits. */
    method SendCard(me: nat, waiting: RunRecord, actor: nat, delivered: bool, env: Interference)
      returns (r: Result<RunRecord, Failure>, ghost trace: seq<Step>)
      requires LeavesMeAlone(me, env) && At(State(), me) == SendingCard(waiting, actor)
      modifies this
      ensures State() == Run(Next, old(State()), trace) && At(State(), me) == Idle
      ensures r.Ok? ==> delivered && store.record == Some(r.value) && r.value == waiting.(revision := waiting.revision + 1)
    {
      hide Next, Accepts, Append, Run, CanTransition;
      ghost var s0 := State();
      EmptyRun(s0);
      trace := [];
      Await(me, env(2));
      Extend(s0, s0, trace, State(), env(2));
      trace := trace + env(2);
      NextIsCard(State(), me, delivered);
      ExtendOne(s0, State(), trace, Step(me, CardAnswer(delivered)));
      trace := trace + [Step(me, CardAnswer(delivered))];
      callers := callers[me := CardAnswered(waiting, actor, delivered)];
      ghost var s2 := State();

      Await(me, env(3));
      Extend(s0, s2, trace, State(), env(3));
      trace := trace + env(3);
      NextIsCard(State(), me, delivered);
      ExtendOne(s0, State(), trace, Step(me, CardStore));
      trace := trace + [Step(me, CardStore)];
      callers := callers[me := Idle];
      if delivered {
        r := Record(waiting, CardSent, actor, None, waiting, None);
      } else {
        r := Record(waiting, DeliveryFailed, actor, Some(EvidenceHold), waiting, None);
        if r.Ok? {
          r := Err(DeniedError);
        }
      }
    }

    // -------------------------------------------------------------- decide

    /** The checks of `decide`, in their order. None where an unbound package raises. */
    method Consider(r: RunRecord, actor: nat, hash: BriefHash, decision: Decision, version: Option<nat>, now: int, factsOk: bool, evidenceOk: bool)
      returns (v: Option<Verdict>)
      ensures v == Judge(config, r, actor, hash, decision, version, now, factsOk, evidenceOk)
    {
      if actor != config.approver {
        return Some(Deny);
      }
      var package := VerifyPackage(r, factsOk, evidenceOk);
      if package.Unbound? {
        return None;
      }
      if package.Denied? {
        return Some(Deny);
      }
      var current := r.envelope.value;
      if ComputeBriefHash(current.brief, current.manifest) != Ok(hash) || r.briefHash != Some(hash) {
        return Some(Deny);
      }
      if version.Some? && version.value != current.brief.version {
        return Some(Deny);
      }
      if r.approval.Some? {
        return Some(Duplicate);
      }
      if !r.state.AwaitingApproval? || r.requestedAt.None? || now - r.requestedAt.value > 3600
         || (!decision.Approve? && !decision.Reject?) || !AuthorityCovers(r.discount) {
        return Some(Deny);
      }
      return Some(Verdict.Record(Approval(config.runId, current.brief.version, hash, actor, decision, true)));
    }

    /** `decide`: a refusal and a duplicate are audited like a decision, each by its own commit.
        Ok is the record committed; a refusal is raised after its audit. */
    method Decide(me: nat, actor: nat, hash: BriefHash, decision: Decision, version: Option<nat>, now: int,
                  factsOk: bool, evidenceOk: bool, env: Interference)
      returns (r: Result<RunRecord, Failure>, ghost trace: seq<Step>)
      requires LeavesMeAlone(me, env) && At(State(), me) == Idle
      modifies this
      ensures State() == Run(Next, old(State()), trace)
      ensures At(State(), me) == Idle
      ensures old(store.record.None?) ==> r == Err(KeyError) && State() == old(State())
      ensures r.Ok? ==> old(store.record.Some?)
      ensures r.Ok? ==> store.record == Some(r.value)
      ensures r.Ok? ==> var v := Judge(config, old(store.record.value), actor, hash, decision, version, now, factsOk, evidenceOk);
        && v.Some? && !v.value.Deny?
        && (v.value.Record? ==> r.value.approval == Some(v.value.approval))
      ensures old(Inv(State())) ==> Inv(State())
    {
      hide Next, Inv, Judge, Accepts, Append, Run;
      ghost var s0 := State();
      EmptyRun(s0);
      InvAlong(s0, []);
      if store.record.None? {
        return Err(KeyError), [];
      }
      var record := store.record.value;
      var verdict := Consider(record, actor, hash, decision, version, now, factsOk, evidenceOk);
      if verdict.None? {
        return Err(BindingRaised), [];
      }
      NextIsDecide(s0, me, actor, hash, decision, version, now, factsOk, evidenceOk);
      ExtendOne(s0, s0, [], Step(me, DecideLoad(actor, hash, decision, version, now, factsOk, evidenceOk)));
      trace := [] + [Step(me, DecideLoad(actor, hash, decision, version, now, factsOk, evidenceOk))];
      callers := callers[me := Deciding(record, actor, verdict.value)];
      ghost var s1 := State();
      Await(me, env(0));
      Extend(s0, s1, trace, State(), env(0));
      trace := trace + env(0);
      r := CommitDecision(me, record, actor, verdict.value);
      ExtendOne(s0, Run(Next, s0, trace), trace, Step(me, DecideStore));
      trace := trace + [Step(me, DecideStore)];
      InvAlong(s0, trace);
    }

    method CommitDecision(me: nat, record: RunRecord, actor: nat, verdict: Verdict) returns (r: Result<RunRecord, Failure>)
      requires At(State(), me) == Deciding(record, actor, verdict)
      modifies this
      ensures State() == Next(old(State()), Step(me, DecideStore))
      ensures At(State(), me) == Idle
      ensures r.Ok? ==> !verdict.Deny? && store.record == Some(r.value) && (verdict.Record? ==> r.value.approval == Some(verdict.approval))
    {
      hide Next, Accepts, Append, CanTransition;
      NextIsDecide(State(), me, 0, BriefHash(Brief(0, 0, 0, 0, EvidenceDigest([])), Manifest(0, 0, 0, [])), Approve, None, 0, true, true);
      callers := callers[me := Idle];
      if verdict.Record? {
        var target := if verdict.approval.decision.Approve? then Approved else ClosedRejected;
        if !CanTransition(record.state, target) {
          return Err(DeniedError);
        }
        var updated := record.(approval := Some(verdict.approval), state := target, revision := record.revision + 1);
        var change := Change(updated, Event(record.revision + 1, DecisionRecorded, target, actor, None), record.revision);
        AppendedIsCurrent(store, change);
        AppendRefused(store, change);
        r := if Accepts(store, change) then Ok(updated) else Err(ConflictError);
        store := Append(store, change);
      } else {
        var kind := if verdict.Deny? then DecisionDenied else DuplicateIgnored;
        var updated := record.(revision := record.revision + 1);
        var change := Change(updated, Event(record.revision + 1, kind, record.state, actor, None), record.revision);
        AppendedIsCurrent(store, change);
        AppendRefused(store, change);
        r := if !Accepts(store, change) then Err(ConflictError) else if verdict.Deny? then Err(DeniedError) else Ok(updated);
        store := Append(store, change);
      }
    }

    /** The guards, and the commit that starts the execution. Ok is the plan to work through. */
    method Launch(me: nat, factsOk: bool, evidenceOk: bool, env: Interference)
      returns (r: Result<Position, Failure>, ghost trace: seq<Step>)
      requires LeavesMeAlone(me, env) && At(State(), me) == Idle
      requires store.record.Some? ==> !store.record.value.state.Executed?
      modifies this
      ensures State() == Run(Next, old(State()), trace)
      ensures old(store.record.None?) ==> r == Err(KeyError) && State() == old(State())
      ensures r.Ok? ==> old(store.record.Some?)
      ensures r.Ok? ==> r.value.Ready? && r.value.at == 0 && At(State(), me) == r.value
      ensures r.Ok? ==> old(store.record.value.approval.Some?) && MayLaunch(config, old(store.record.value), factsOk, evidenceOk) == Some(true)
      ensures r.Err? ==> At(State(), me) == Idle
    {
      hide Next, Accepts, Append, MayLaunch, CanTransition, Draft, Audit;
      if store.record.None? {
        assert Run(Next, State(), []) == State();
        return Err(KeyError), [];
      }
      var record := store.record.value;
      var allowed := MayLaunch(config, record, factsOk, evidenceOk);
      if allowed.None? {
        assert Run(Next, State(), []) == State();
        return Err(BindingRaised), [];
      }
      NextIsLaunch(State(), me, factsOk, evidenceOk);
      RunOne(Next, State(), Step(me, ExecuteLoad(factsOk, evidenceOk)));
      callers := callers[me := Launching(record, !allowed.value)];
      trace := [Step(me, ExecuteLoad(factsOk, evidenceOk))];
      ghost var s1 := State();
      assert s1 == Run(Next, old(State()), trace);
      Await(me, env(0));
      Extend(old(State()), s1, trace, State(), env(0));
      trace := trace + env(0);
      ghost var s2 := State();
      NextIsExecute(s2, me);
      ExtendOne(old(State()), s2, trace, Step(me, ExecuteStore));
      trace := trace + [Step(me, ExecuteStore)];
      if !allowed.value {
        store := Append(store, Audit(record, ExecutionDenied, 0));
        callers := callers[me := Idle];
        AppendRefused(s2.store, Audit(record, ExecutionDenied, 0));
        assert State() == Next(s2, Step(me, ExecuteStore));
        return Err(DeniedError), trace;
      }
      LaunchableTransitions(config, record, factsOk, evidenceOk);
      var actor := record.approval.value.actor;
      var started := Draft(record, ExecutionStarted, actor, Some(Executing), record, None);
      if !Accepts(store, started) {
        callers := callers[me := Idle];
        assert State() == Next(s2, Step(me, ExecuteStore));
        return Err(ConflictError), trace;
      }
      store := Append(store, started);
      var p := Ready(record.envelope.value.manifest.actions, 0, actor, started.record);
      callers := callers[me := p];
      assert State() == Next(s2, Step(me, ExecuteStore));
      return Ok(p), trace;
    }

    /** One action: its start is committed before the external call, its outcome after it. */
    method Perform(me: nat, plan: seq<Action>, at: nat, actor: nat, answer: Option<nat>, env: Interference, clock: nat)
      returns (r: Result<RunRecord, Failure>, tick: nat, ghost trace: seq<Step>)
      requires LeavesMeAlone(me, env) && at < |plan|
      requires At(State(), me) == Reloading(plan, at, actor, Starting, COMMIT_ATTEMPTS)
      modifies this
      ensures State() == Run(Next, old(State()), trace)
      ensures r.Ok? ==> answer.Some? && Reported(State(), me, plan, at, actor, Done(answer.value), r.value)
      ensures r.Err? ==> At(State(), me) == Idle
    {
      hide Next;
      r, tick, trace := ExecutionEvent(me, plan, at, actor, Starting, env, clock);
      if r.Err? {
        return;
      }
      NextIsCall(State(), me, answer);
      ExtendOne(old(State()), State(), trace, Step(me, Invoke));
      trace := trace + [Step(me, Invoke)];
      calls := calls + [Call(me, plan[at])];
      callers := callers[me := InFlight(plan, at, actor)];
      assert State() == Run(Next, old(State()), trace);

      ghost var s := State();
      Await(me, env(tick));
      Extend(old(State()), s, trace, State(), env(tick));
      trace := trace + env(tick);

      NextIsCall(State(), me, answer);
      ExtendOne(old(State()), State(), trace, Step(me, Answer(answer)));
      trace := trace + [Step(me, Answer(answer))];
      var report := if answer.Some? then Done(answer.value) else Failed;
      callers := callers[me := Reloading(plan, at, actor, report, COMMIT_ATTEMPTS)];
      assert State() == Run(Next, old(State()), trace);
      ghost var more, t := [], State();
      r, tick, more := ExecutionEvent(me, plan, at, actor, report, env, tick + 1);
      Extend(old(State()), t, trace, State(), more);
      trace := trace + more;
      if answer.None? && r.Ok? {
        r := Err(DeniedError);
      }
    }

    /** One turn of the loop: a completed action is skipped, any other is performed. */
    method TakeTurn(me: nat, plan: seq<Action>, at: nat, actor: nat, record: RunRecord, answer: Option<nat>, env: Interference, clock: nat)
      returns (r: Result<RunRecord, Failure>, tick: nat, ghost trace: seq<Step>)
      requires LeavesMeAlone(me, env) && at < |plan| && At(State(), me) == Ready(plan, at, actor, record)
      modifies this
      ensures State() == Run(Next, old(State()), trace)
      ensures At(State(), me) == if r.Ok? then Ready(plan, at + 1, actor, r.value) else Idle
    {
      hide Next, Reported, Run;
      EmptyRun(State());
      NextIsAction(State(), me);
      ExtendOne(old(State()), State(), [], Step(me, ExecuteNext));
      trace, tick := [] + [Step(me, ExecuteNext)], clock;
      var key := plan[at].key;
      if key in record.status && record.status[key] == Completed {
        callers := callers[me := Ready(plan, at + 1, actor, record)];
        r := Ok(record);
      } else {
        callers := callers[me := Reloading(plan, at, actor, Starting, COMMIT_ATTEMPTS)];
        ghost var more, t := [], State();
        r, tick, more := Perform(me, plan, at, actor, answer, env, clock);
        Extend(old(State()), t, trace, State(), more);
        trace := trace + more;
        if r.Ok? {
          ReportedPosition(State(), me, plan, at, actor, Done(answer.value), r.value);
        }
      }
    }

    /** The loop over the approved manifest, and the event that ends it. The `answers` are what the outside world says to
        each call: a receipt, or an exception. */
    method WorkThrough(me: nat, plan: seq<Action>, actor: nat, started: RunRecord, answers: nat -> Option<nat>, env: Interference)
      returns (r: Result<RunRecord, Failure>, ghost trace: seq<Step>)
      requires LeavesMeAlone(me, env) && At(State(), me) == Ready(plan, 0, actor, started)
      modifies this
      ensures State() == Run(Next, old(State()), trace)
      ensures At(State(), me) == Idle
      ensures r.Ok? ==> r.value.state.Executed? && store.record == Some(r.value)
    {
      hide Next, Reported, Run;
      r := Ok(started);
      var tick := 1;
      trace := [];
      EmptyRun(State());
      for at := 0 to |plan|
        invariant r.Ok? && At(State(), me) == Ready(plan, at, actor, r.value)
        invariant State() == Run(Next, old(State()), trace)
      {
        ghost var more, t := [], State();
        r, tick, more := TakeTurn(me, plan, at, actor, r.value, answers(at), env, tick);
        Extend(old(State()), t, trace, State(), more);
        trace := trace + more;
        if r.Err? {
          return;
        }
      }
      NextIsAction(State(), me);
      ExtendOne(old(State()), State(), trace, Step(me, ExecuteNext));
      trace := trace + [Step(me, ExecuteNext)];
      callers := callers[me := Reloading(plan, |plan|, actor, Finished, COMMIT_ATTEMPTS)];
      ghost var last, t := [], State();
      r, tick, last := ExecutionEvent(me, plan, |plan|, actor, Finished, env, tick);
      Extend(old(State()), t, trace, State(), last);
      trace := trace + last;
      if r.Ok? {
        ReportedPosition(State(), me, plan, |plan|, actor, Finished, r.value);
      }
    }

    /** An executed Run is returned as it is; otherwise the guards, the start, and the loop. */
    method Execute(me: nat, factsOk: bool, evidenceOk: bool, answers: nat -> Option<nat>, env: Interference)
      returns (r: Result<RunRecord, Failure>, ghost trace: seq<Step>)
      requires LeavesMeAlone(me, env) && At(State(), me) == Idle
      modifies this
      ensures State() == Run(Next, old(State()), trace)
      ensures At(State(), me) == Idle
      ensures old(store.record.None?) ==> r == Err(KeyError) && State() == old(State())
      ensures r.Ok? ==> old(store.record.Some?)
      ensures r.Ok? ==> r.value.state.Executed? && store.record == Some(r.value)
      ensures r.Ok? && !old(store.record.value.state.Executed?) ==>
        MayLaunch(config, old(store.record.value), factsOk, evidenceOk) == Some(true)
      ensures old(Inv(State())) ==> Inv(State())
    {
      hide Next, Inv, MayLaunch, Run;
      trace := [];
      EmptyRun(State());
      if store.record.Some? && store.record.value.state.Executed? {
        r := Ok(store.record.value);
      } else {
        var launched;
        launched, trace := Launch(me, factsOk, evidenceOk, env);
        if launched.Err? {
          r := Err(launched.error);
        } else {
          ghost var more, t := [], State();
          r, more := WorkThrough(me, launched.value.plan, launched.value.actor, launched.value.local, answers, env);
          Extend(old(State()), t, trace, State(), more);
          trace := trace + more;
        }
      }
      InvAlong(old(State()), trace);
    }
  }

  lemma EmptyRun(s: System)
    ensures Run(Next, s, []) == s
  {
  }

  lemma AppendRefused(m: Ledger, c: Change)
    ensures !Accepts(m, c) ==> Append(m, c) == m
  {
  }

  lemma ReportedPosition(s: System, me: nat, plan: seq<Action>, at: nat, actor: nat, report: Report, record: RunRecord)
    requires Reported(s, me, plan, at, actor, report, record)
    ensures At(s, me) == After(plan, at, actor, report, record) && s.store.record == Some(record)
    ensures report.Finished? ==> record.state.Executed?
  {
  }

  lemma InvAlong(s: System, steps: seq<Step>)
    ensures Inv(s) ==> Inv(Run(Next, s, steps)) && History.Later(s, Run(Next, s, steps))
  {
    hide Inv, Next, Run, History.Later;
    if Inv(s) {
      History.LaterAlong(s, steps);
    }
  }
}
