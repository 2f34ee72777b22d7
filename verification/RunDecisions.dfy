/** The approval of a Run: when a decision is recorded, and that what `decide` records is what
    `execute` accepts. */
module RunDecisions {
  import opened Results
  import opened RunRecords
  import opened RunStore
  import opened RunController
  import opened RunSafety
  import opened Traces

  /** The package of a Run holds together: one envelope, bound to its manifest, hashed, pointed at
      by the record, and built on the evidence the record holds. */
  predicate Whole(r: RunRecord) {
    && r.proposal.Some? && r.envelope.Some?
    && var e := r.envelope.value;
    && e.brief.runId == e.manifest.runId && e.brief.version == e.manifest.version && e.brief.manifestId == e.manifest.manifestId
    && e.hash == BriefHash(e.brief, e.manifest)
    && r.briefHash == Some(e.hash) && r.briefVersion == e.brief.version
    && e.brief.evidence == EvidenceDigest(r.evidence)
  }

  /** A decision is recorded exactly for the configured approver, within an hour of the request,
      on a whole package that the caller named by its hash, and only up to the discount an account
      manager may grant. A second decision on such a package is ignored, and an error is raised
      only where the manifest is not that of the brief; anything else is denied. */
  lemma DecisionIsRecordedExactlyWhen(
      config: Config, r: RunRecord, actor: nat, hash: BriefHash, decision: Decision, version: Option<nat>, now: int,
      factsOk: bool, evidenceOk: bool)
    ensures
      var verdict := Judge(config, r, actor, hash, decision, version, now, factsOk, evidenceOk);
      (verdict.Some? && verdict.value.Record?) <==>
        && actor == config.approver && factsOk && evidenceOk && Whole(r)
        && r.briefHash == Some(hash) && (version.Some? ==> version.value == r.briefVersion)
        && r.approval.None? && r.state.AwaitingApproval?
        && r.requestedAt.Some? && now - r.requestedAt.value <= 3600
        && (decision.Approve? || decision.Reject?)
        && r.discount <= 800
    ensures
      Judge(config, r, actor, hash, decision, version, now, factsOk, evidenceOk) == Some(Duplicate) <==>
        && actor == config.approver && factsOk && evidenceOk && Whole(r)
        && r.briefHash == Some(hash) && (version.Some? ==> version.value == r.briefVersion)
        && r.approval.Some?
    ensures
      Judge(config, r, actor, hash, decision, version, now, factsOk, evidenceOk).None? <==>
        && actor == config.approver && factsOk && evidenceOk && r.proposal.Some? && r.envelope.Some?
        && var e := r.envelope.value;
        e.brief.runId != e.manifest.runId || e.brief.version != e.manifest.version || e.brief.manifestId != e.manifest.manifestId
  {
  }

  /** What a recorded decision says is what the approver sent. */
  lemma RecordedIsSent(
      config: Config, r: RunRecord, actor: nat, hash: BriefHash, decision: Decision, version: Option<nat>, now: int,
      factsOk: bool, evidenceOk: bool)
    requires var v := Judge(config, r, actor, hash, decision, version, now, factsOk, evidenceOk); v.Some? && v.value.Record?
    ensures var a := Judge(config, r, actor, hash, decision, version, now, factsOk, evidenceOk).value.approval;
      && a.actor == actor && a.hash == hash && a.decision == decision && a.authorized
      && a.runId == config.runId && r.envelope.Some? && a.version == r.envelope.value.brief.version
  {
  }

  /** An execution is accepted exactly on a whole package with an authorized approval of that
      package by the configured approver, in a state that may launch, with nothing left open. */
  lemma LaunchIsAcceptedExactlyWhen(config: Config, r: RunRecord, factsOk: bool, evidenceOk: bool)
    ensures MayLaunch(config, r, factsOk, evidenceOk) == Some(true) <==>
      && factsOk && evidenceOk && Whole(r) && r.discount <= 800
      && (r.state.Approved? || r.state.ExecutionFailed?) && (forall k :: k in r.status ==> r.status[k] == Completed)
      && r.approval.Some?
      && var a, e := r.approval.value, r.envelope.value;
      a.actor == config.approver && a.decision == Approve && a.authorized
      && a.runId == e.brief.runId && a.version == e.brief.version && a.hash == BriefHash(e.brief, e.manifest)
  {
  }

  /** The record a decision makes. */
  function DecidedRecord(r: RunRecord, approval: Approval): RunRecord {
    Draft(r, DecisionRecorded, approval.actor, Some(if approval.decision.Approve? then Approved else ClosedRejected),
          r.(approval := Some(approval)), None).record
  }

  /** What `decide` approves is what `execute` accepts, as long as facts and citations still hold;
      a rejected Run is accepted by no later `execute`. */
  lemma ApprovalOpensExecution(
      config: Config, r: RunRecord, actor: nat, hash: BriefHash, decision: Decision, version: Option<nat>, now: int, factsOk: bool, evidenceOk: bool)
    requires var v := Judge(config, r, actor, hash, decision, version, now, true, true); v.Some? && v.value.Record?
    requires r.status == map[] && r.envelope.Some? && r.envelope.value.brief.runId == config.runId
    ensures var a := Judge(config, r, actor, hash, decision, version, now, true, true).value.approval;
      && (MayLaunch(config, DecidedRecord(r, a), factsOk, evidenceOk) == Some(true) <==> decision.Approve? && factsOk && evidenceOk)
      && (decision.Reject? ==> MayLaunch(config, DecidedRecord(r, a), factsOk, evidenceOk) == Some(false))
  {
  }

  /** In a running system an execution is only ever accepted on an approval of exactly the stored
      package, by the configured approver, before anything was started. */
  lemma ExecutionIsAccepted(config: Config, steps: seq<Step>, factsOk: bool, evidenceOk: bool)
    requires var t := Run(Next, Initial(config), steps); t.store.record.Some?
    requires MayLaunch(config, Run(Next, Initial(config), steps).store.record.value, factsOk, evidenceOk) == Some(true)
    ensures var r := Run(Next, Initial(config), steps).store.record.value;
      && factsOk && evidenceOk && Whole(r) && r.state.Approved? && r.approval.Some?
      && r.approval.value.hash == BriefHash(r.envelope.value.brief, r.envelope.value.manifest)
      && r.approval.value.actor == config.approver && r.approval.value.decision.Approve?
      && r.discount <= 800
  {
    RunsAreSafe(config, steps);
    hide Next;
    var t := Run(Next, Initial(config), steps);
    if t.store.record.value.state.ExecutionFailed? {
      FailedIsBlocked(t, factsOk, evidenceOk);
    }
  }

  /** A failed execution holds an unknown status, and the guard refuses it. */
  lemma FailedIsBlocked(s: System, factsOk: bool, evidenceOk: bool)
    requires Inv(s) && s.store.record.Some? && s.store.record.value.state.ExecutionFailed?
    ensures MayLaunch(s.config, s.store.record.value, factsOk, evidenceOk) != Some(true)
  {
    assert RecordOk(s.config, s.store.record.value);
  }
}
