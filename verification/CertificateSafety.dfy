/** What every run of the certificate controller keeps, and what its audit log says. */
module CertificateSafety {
  import opened Results
  import opened DocumentStore
  import opened Certificates
  import opened Traces

  // ---------------------------------------------------------------- the grammar of the log

  function Kinds(events: seq<Event>): (kinds: seq<Kind>)
    ensures |kinds| == |events| && forall i :: 0 <= i < |events| ==> kinds[i] == events[i].kind
  {
    if events == [] then [] else Kinds(events[..|events| - 1]) + [events[|events| - 1].kind]
  }

  /** requested, policy_checked, release_ready, then any number of prepared downloads. */
  predicate ReleasedLog(kinds: seq<Kind>) {
    if |kinds| <= 3 then kinds == [Requested, PolicyChecked, Released]
    else
      && kinds[|kinds| - 2] == PolicyChecked && kinds[|kinds| - 1] == DownloadPrepared
      && ReleasedLog(kinds[..|kinds| - 2])
  }

  /** Held at once, or a released log that ends in a hold. */
  predicate HeldLog(kinds: seq<Kind>) {
    || kinds == [Requested, PolicyChecked, Held, CaseCreated]
    || (|kinds| > 4 && kinds[|kinds| - 3..] == [PolicyChecked, Held, CaseCreated] && ReleasedLog(kinds[..|kinds| - 3]))
  }

  // ---------------------------------------------------------------- the invariant

  ghost predicate RecordOk(config: Config, r: Record) {
    && Consistent(r)
    && r.hash == DecisionHash(r.identity, r.decision)
    && r.identity.actor in config.customers && r.identity == IdentityOf(config, r.identity.actor, r.identity.equipment)
    && (r.decision.outcome.ReleaseReady? ==> ReleasedLog(Kinds(r.events)))
    && (r.decision.outcome.OperationsRequired? ==>
          HeldLog(Kinds(r.events)) && r.opsCase == Some(Case(config.request, config.operations, Reasons(r.decision))))
  }

  function Log(s: System): seq<Event> {
    if HasRecord(s) then Stored(s).events else []
  }

  predicate HasEvent(s: System, n: nat) {
    EventId(n) in s.docs.docs && s.docs.docs[EventId(n)].body.EventDoc?
  }

  /** The decision kept with a policy check. */
  function DecisionAt(s: System, n: nat): Option<Decision> {
    if HasEvent(s, n) then s.docs.docs[EventId(n)].body.decision else None
  }

  function ArtifactAt(s: System, n: nat): Option<Artifact> {
    if DecisionAt(s, n).Some? then DecisionAt(s, n).value.artifact else None
  }

  /** The artifact of the first release decision: the second event of the log. */
  function FirstArtifact(s: System): Option<Artifact> {
    ArtifactAt(s, 2)
  }

  /** The documents are the snapshot, one for each of its events, and for a held request one
      case and one outbox entry. */
  ghost predicate Filed(s: System) {
    && Tagged(s.docs)
    && (SnapshotId in s.docs.docs ==> HasRecord(s))
    && (forall n: nat :: EventId(n) in s.docs.docs <==> 1 <= n <= |Log(s)|)
    && (forall n: nat :: 1 <= n <= |Log(s)| ==> HasEvent(s, n) && s.docs.docs[EventId(n)].body.event == Log(s)[n - 1])
    && (CaseId in s.docs.docs <==> HasRecord(s) && Stored(s).opsCase.Some?)
    && (OutboxId in s.docs.docs <==> HasRecord(s) && Stored(s).opsCase.Some?)
    && (HasRecord(s) && Stored(s).opsCase.Some? ==>
          && s.docs.docs[CaseId].body == CaseDoc(Stored(s).opsCase.value)
          && s.docs.docs[OutboxId].body == OutboxDoc(Stored(s).opsCase.value))
  }

  /** Every release of the log rests on a policy check, kept beside it, of the first artifact. */
  ghost predicate Grounded(s: System) {
    && (HasRecord(s) ==> RecordOk(s.config, Stored(s)))
    && (HasRecord(s) && Stored(s).decision.outcome.ReleaseReady? ==> Stored(s).decision.artifact == FirstArtifact(s))
    && (forall n: nat :: 1 <= n < |Log(s)| && Log(s)[n].kind.DownloadPrepared? ==>
          DecisionAt(s, n).Some? && DecisionAt(s, n).value.outcome.ReleaseReady? && ArtifactAt(s, n) == FirstArtifact(s))
  }

  /** A record as read: a moment of the log, and the stored one as long as the log is no longer. */
  ghost predicate SnapOk(s: System, r: Record) {
    && HasRecord(s) && RecordOk(s.config, r)
    && r.identity == Stored(s).identity && r.context == Stored(s).context
    && r.events <= Log(s) && (r.events == Log(s) ==> r == Stored(s))
  }

  ghost predicate Downloading(s: System, r: Record) {
    && SnapOk(s, r) && r.decision.outcome.ReleaseReady? && r.decision.artifact == FirstArtifact(s) && FirstArtifact(s).Some?
  }

  /** A record about to be committed on top of the one that was read. */
  ghost predicate Concluded(s: System, snap: Record, updated: Record, pdf: Option<(Bytes, nat, nat)>) {
    && Downloading(s, snap)
    && Consistent(updated)
    && updated == Draft(s.config, snap.identity, snap.context, updated.decision, snap.events, true)
    && (updated.decision.outcome.ReleaseReady? ==> updated.decision.artifact == snap.decision.artifact)
    && (pdf.Some? ==> updated.decision.outcome.ReleaseReady? && PdfOk(snap, pdf.value))
  }

  /** The caller is the customer of the request, in the tenant of the workflow. */
  predicate Entitled(config: Config, r: Record, asker: Asker) {
    && asker.tenant == config.tenant && asker.tenant == r.identity.tenant && asker.actor == r.identity.actor
    && asker.actor in config.customers && config.customers[asker.actor] == r.identity.customer
  }

  ghost predicate PdfOk(snap: Record, pdf: (Bytes, nat, nat)) {
    && snap.decision.artifact.Some? && pdf.0.isPdf && Digest(pdf.0) == snap.decision.artifact.value.sha
    && pdf.1 < pdf.2
  }

  ghost predicate PositionOk(s: System, p: Position) {
    match p
    case Idle => true
    case Evaluating(identity, _) => identity.actor in s.config.customers && identity == IdentityOf(s.config, identity.actor, identity.equipment)
    case Creating(draft, context) =>
      && Lawful(draft.decision) && draft.context == context
      && draft == Draft(s.config, draft.identity, draft.context, draft.decision, [], false)
      && draft.identity.actor in s.config.customers
      && draft.identity == IdentityOf(s.config, draft.identity.actor, draft.identity.equipment)
    case Losing(_, _) => true
    case Checking(asker, snap) => Downloading(s, snap) && Entitled(s.config, snap, asker)
    case ReadingPdf(asker, snap, decision) =>
      Downloading(s, snap) && Entitled(s.config, snap, asker) && Lawful(decision) && decision.artifact == snap.decision.artifact
    case Rechecking(asker, snap, pdf, read) =>
      && Downloading(s, snap) && Entitled(s.config, snap, asker)
      && snap.decision.artifact.Some? && pdf.isPdf && Digest(pdf) == snap.decision.artifact.value.sha && read <= s.clock
    case Committing(asker, snap, updated, pdf) => Concluded(s, snap, updated, pdf) && Entitled(s.config, snap, asker)
    case Storing(asker, snap, updated, pdf, etag) =>
      Concluded(s, snap, updated, pdf) && Entitled(s.config, snap, asker) && etag < s.docs.clock && (TagOf(s) == etag ==> Stored(s) == snap)
  }

  /** A release: its audit event is stored, the policy check before it released the first
      artifact and came after the bytes were read, and the bytes are that artifact's. */
  ghost predicate ReleaseOk(s: System, r: Release) {
    && 1 < r.event <= |Log(s)| && Log(s)[r.event - 1].kind.DownloadPrepared?
    && FirstArtifact(s).Some? && ArtifactAt(s, r.event - 1) == FirstArtifact(s)
    && r.bytes.isPdf && Digest(r.bytes) == FirstArtifact(s).value.sha
    && r.read < r.checked
    && HasRecord(s) && Entitled(s.config, Stored(s), r.asker)
  }

  ghost predicate AnswerOk(s: System, a: Answer) {
    && (a.context.Some? ==> a.record.context == a.context)
    && HasRecord(s) && a.record.identity == a.identity == Stored(s).identity
    && RecordOk(s.config, a.record) && a.record.events <= Log(s)
  }

  ghost predicate Inv(s: System) {
    && Filed(s) && Grounded(s)
    && (forall w :: w in s.callers ==> PositionOk(s, s.callers[w]))
    && (forall i :: 0 <= i < |s.answers| ==> AnswerOk(s, s.answers[i]))
    && (forall i :: 0 <= i < |s.releases| ==> ReleaseOk(s, s.releases[i]))
  }

  /** What a later moment keeps of an earlier one; a held request never changes, and releases
      nothing more. */
  ghost predicate Later(s: System, t: System) {
    && t.config == s.config && s.clock <= t.clock
    && Log(s) <= Log(t)
    && s.answers <= t.answers && s.releases <= t.releases
    && (HasRecord(s) ==> HasRecord(t) && Stored(t).identity == Stored(s).identity)
    && (forall n: nat :: HasEvent(s, n) ==> HasEvent(t, n) && t.docs.docs[EventId(n)].body == s.docs.docs[EventId(n)].body)
    && (HasRecord(s) && Stored(s).opsCase.Some? ==> Stored(t) == Stored(s) && t.releases == s.releases)
  }

  // ---------------------------------------------------------------- steps that write nothing

  lemma SameDocsSamePositions(s: System, t: System, p: Position)
    requires PositionOk(s, p) && t.docs == s.docs && t.config == s.config && s.clock <= t.clock
    ensures PositionOk(t, p)
  {
    hide Consistent, RecordOk, Lawful, Draft;
    assert Log(t) == Log(s) && FirstArtifact(t) == FirstArtifact(s);
  }

  /** Only callers, the clock, and what was returned may differ. */
  lemma QuietKeeps(s: System, t: System)
    requires Inv(s) && t.docs == s.docs && t.config == s.config && s.clock <= t.clock
    requires forall w :: w in t.callers ==> PositionOk(s, t.callers[w]) || PositionOk(t, t.callers[w])
    requires s.answers <= t.answers && forall i :: |s.answers| <= i < |t.answers| ==> AnswerOk(s, t.answers[i])
    requires t.releases == s.releases
    ensures Inv(t) && Later(s, t)
  {
    hide PositionOk, Filed, Grounded;
    assert Log(t) == Log(s);
    SameDocs(s, t);
    forall w | w in t.callers ensures PositionOk(t, t.callers[w]) {
      if PositionOk(s, t.callers[w]) {
        SameDocsSamePositions(s, t, t.callers[w]);
      }
    }
    forall i | 0 <= i < |t.answers| ensures AnswerOk(t, t.answers[i]) {
      assert AnswerOk(s, t.answers[i]);
    }
    forall i | 0 <= i < |t.releases| ensures ReleaseOk(t, t.releases[i]) {
      assert ReleaseOk(s, s.releases[i]);
      assert FirstArtifact(t) == FirstArtifact(s);
    }
  }

  lemma GotoKeeps(s: System, w: nat, p: Position)
    requires Inv(s) && PositionOk(s, p)
    ensures Inv(Goto(s, w, p)) && Later(s, Goto(s, w, p))
  {
    hide PositionOk, Filed, Grounded, Later;
    QuietKeeps(s, Goto(s, w, p));
  }

  lemma IdleOk(s: System)
    ensures PositionOk(s, Idle)
  {
  }

  lemma IdleKeeps(s: System, w: nat)
    requires Inv(s)
    ensures Inv(Goto(s, w, Idle)) && Later(s, Goto(s, w, Idle))
  {
    hide Inv, Later;
    IdleOk(s);
    GotoKeeps(s, w, Idle);
  }

  lemma WinnerKeeps(s: System, w: nat, identity: Identity, context: Option<nat>)
    requires Inv(s)
    ensures Inv(NextWinner(s, w, identity, context)) && Later(s, NextWinner(s, w, identity, context))
  {
    hide PositionOk, Filed, Later;
    IdleOk(s);
    QuietKeeps(s, NextWinner(s, w, identity, context));
  }

  lemma RequestKeeps(s: System, w: nat, actor: nat, equipment: nat, context: Option<nat>)
    requires Inv(s) && actor in s.config.customers
    ensures var t := NextRequest(s, w, IdentityOf(s.config, actor, equipment), context); Inv(t) && Later(s, t)
  {
    hide Inv, Later, NextWinner;
    var identity := IdentityOf(s.config, actor, equipment);
    WinnerKeeps(s, w, identity, context);
    if !HasRecord(s) {
      assert PositionOk(s, Evaluating(identity, context));
      GotoKeeps(s, w, Evaluating(identity, context));
    }
  }

  /** A stored record is a snapshot of itself. */
  lemma StoredIsSnap(s: System)
    requires Inv(s) && HasRecord(s)
    ensures SnapOk(s, Stored(s))
    ensures Stored(s).decision.outcome.ReleaseReady? ==> Downloading(s, Stored(s))
  {
  }

  lemma DownloadKeeps(s: System, w: nat, asker: Asker)
    requires Inv(s) && Known(s.config, asker.tenant, asker.actor)
    ensures Inv(NextDownload(s, w, asker)) && Later(s, NextDownload(s, w, asker))
  {
    if HasRecord(s) {
      StoredIsSnap(s);
    }
    hide Inv, Later, Downloading, SnapOk;
    IdleKeeps(s, w);
    if HasRecord(s) && At(NextDownload(s, w, asker), w).Checking? {
      assert PositionOk(s, Checking(asker, Stored(s)));
      GotoKeeps(s, w, Checking(asker, Stored(s)));
    }
  }

  lemma ConcludeKeeps(s: System, w: nat, asker: Asker, snap: Record, d: Decision, pdf: Option<(Bytes, nat)>)
    requires Inv(s) && Downloading(s, snap) && Entitled(s.config, snap, asker) && Lawful(d)
    requires d.outcome.ReleaseReady? ==> d.artifact == snap.decision.artifact
    requires pdf.Some? ==>
      && d.outcome.ReleaseReady? && snap.decision.artifact.Some?
      && pdf.value.0.isPdf && Digest(pdf.value.0) == snap.decision.artifact.value.sha && pdf.value.1 < s.clock
    ensures Inv(Conclude(s, w, asker, snap, d, pdf)) && Later(s, Conclude(s, w, asker, snap, d, pdf))
  {
    hide Inv, Later, Downloading, Consistent, Lawful, Stamp;
    IdleKeeps(s, w);
    var updated := Draft(s.config, snap.identity, snap.context, d, snap.events, true);
    if Consistent(updated) {
      var timed := if pdf.None? then None else Some((pdf.value.0, pdf.value.1, s.clock));
      assert PositionOk(s, Committing(asker, snap, updated, timed));
      GotoKeeps(s, w, Committing(asker, snap, updated, timed));
    }
  }

  lemma EvaluateKeeps(s: System, w: nat, p: Position, d: Decision)
    requires Inv(s) && PositionOk(s, p) && p.Checking? && Lawful(d)
    ensures Inv(NextEvaluate(s, w, p, d)) && Later(s, NextEvaluate(s, w, p, d))
  {
    hide Inv, Later, Downloading, Conclude;
    if d.artifact.None? {
      ConcludeKeeps(s, w, p.asker, p.snap, d, None);
    } else if d.artifact != p.snap.decision.artifact {
      ConcludeKeeps(s, w, p.asker, p.snap, Failed(d, ARTIFACT_CHANGED), None);
    } else {
      assert PositionOk(s, ReadingPdf(p.asker, p.snap, d));
      GotoKeeps(s, w, ReadingPdf(p.asker, p.snap, d));
    }
  }

  lemma PdfKeeps(s: System, w: nat, p: Position, pdf: Option<Bytes>)
    requires Inv(s) && PositionOk(s, p) && p.ReadingPdf?
    ensures Inv(NextPdf(s, w, p, pdf)) && Later(s, NextPdf(s, w, p, pdf))
  {
    hide Inv, Later, Downloading, Conclude;
    if pdf.None? {
      ConcludeKeeps(s, w, p.asker, p.snap, Failed(p.decision, ARTIFACT_UNAVAILABLE), None);
    } else if !pdf.value.isPdf || p.decision.artifact.None? || Digest(pdf.value) != p.decision.artifact.value.sha {
      ConcludeKeeps(s, w, p.asker, p.snap, Failed(p.decision, ARTIFACT_CHANGED), None);
    } else {
      assert PositionOk(s, Rechecking(p.asker, p.snap, pdf.value, s.clock));
      GotoKeeps(s, w, Rechecking(p.asker, p.snap, pdf.value, s.clock));
    }
  }

  lemma RecheckKeeps(s: System, w: nat, p: Position, d: Decision)
    requires Inv(s) && PositionOk(s, p) && p.Rechecking? && p.read < s.clock && Lawful(d)
    ensures Inv(NextRecheck(s, w, p, d)) && Later(s, NextRecheck(s, w, p, d))
  {
    hide Inv, Later, Downloading, Conclude;
    if d.artifact.Some? && d.artifact != p.snap.decision.artifact {
      ConcludeKeeps(s, w, p.asker, p.snap, Failed(d, ARTIFACT_CHANGED), None);
    } else {
      ConcludeKeeps(s, w, p.asker, p.snap, d, if d.outcome.ReleaseReady? then Some((p.bytes, p.read)) else None);
    }
  }

  lemma CommitKeeps(s: System, w: nat, p: Position)
    requires Inv(s) && PositionOk(s, p) && p.Committing?
    ensures Inv(NextCommit(s, w, p)) && Later(s, NextCommit(s, w, p))
  {
    if HasRecord(s) {
      TagIsOld(s);
    }
    hide Inv, Later, Consistent, RecordOk, Draft;
    IdleKeeps(s, w);
    var q := At(NextCommit(s, w, p), w);
    if q.Storing? {
      assert p.updated.events[..|p.snap.events|] == p.snap.events by {
        DraftExtends(s.config, p.snap, p.updated);
      }
      assert Stored(s) == p.snap;
      assert PositionOk(s, q);
      GotoKeeps(s, w, q);
    }
  }

  lemma TagIsOld(s: System)
    requires Inv(s) && HasRecord(s)
    ensures TagOf(s) < s.docs.clock
  {
  }

  lemma DraftExtends(config: Config, snap: Record, updated: Record)
    requires updated == Draft(config, snap.identity, snap.context, updated.decision, snap.events, true) && snap.events != []
    ensures updated.events == snap.events + Stamp(Tail(updated.decision, true), |snap.events|, updated.decision.evaluatedAt)
    ensures snap.events <= updated.events && |updated.events| >= |snap.events| + 2
  {
    assert [] + Tail(updated.decision, true) == Tail(updated.decision, true);
  }

  // ---------------------------------------------------------------- what a draft is

  lemma {:induction false} KindsAppend(a: seq<Event>, b: seq<Event>)
    ensures Kinds(a + b) == Kinds(a) + Kinds(b)
  {
    var left, right := Kinds(a + b), Kinds(a) + Kinds(b);
    assert |left| == |right|;
    forall i | 0 <= i < |left| ensures left[i] == right[i] {
    }
  }

  lemma KindsOfStamp(kinds: seq<Kind>, from: nat, at: int)
    ensures Kinds(Stamp(kinds, from, at)) == kinds
  {
    assert forall i :: 0 <= i < |kinds| ==> Kinds(Stamp(kinds, from, at))[i] == kinds[i];
  }

  lemma BaseLogs()
    ensures ReleasedLog([Requested, PolicyChecked, Released]) && HeldLog([Requested, PolicyChecked, Held, CaseCreated])
  {
  }

  lemma FirstDraftParts(config: Config, r: Record)
    requires r == Draft(config, r.identity, r.context, r.decision, [], false)
    ensures r.events == Stamp([Requested] + Tail(r.decision, false), 0, r.decision.evaluatedAt)
    ensures r.hash == DecisionHash(r.identity, r.decision)
    ensures r.decision.outcome.OperationsRequired? ==> r.opsCase == Some(Case(config.request, config.operations, Reasons(r.decision)))
  {
    hide Stamp, Tail, Reasons;
    var events := Stamp([Requested] + Tail(r.decision, false), 0, r.decision.evaluatedAt);
    assert [] + events == events;
  }

  lemma TailIs(d: Decision)
    ensures d.outcome.ReleaseReady? ==> [Requested] + Tail(d, false) == [Requested, PolicyChecked, Released]
    ensures d.outcome.OperationsRequired? ==> [Requested] + Tail(d, false) == [Requested, PolicyChecked, Held, CaseCreated]
  {
  }

  /** A first record has the log of its outcome. */
  lemma FirstDraftOk(config: Config, r: Record)
    requires Lawful(r.decision) && Consistent(r)
    requires r == Draft(config, r.identity, r.context, r.decision, [], false)
    requires r.identity.actor in config.customers && r.identity == IdentityOf(config, r.identity.actor, r.identity.equipment)
    ensures RecordOk(config, r)
    ensures |r.events| >= 3 && r.events[1].kind.PolicyChecked? && r.events[0].kind.Requested?
    ensures forall i :: 2 <= i < |r.events| ==> !r.events[i].kind.DownloadPrepared? && !r.events[i].kind.PolicyChecked?
  {
    hide Consistent, Lawful, Stamp, Kinds, ReleasedLog, HeldLog, Draft, Tail, Reasons, IdentityOf;
    BaseLogs();
    FirstDraftParts(config, r);
    TailIs(r.decision);
    KindsOfStamp([Requested] + Tail(r.decision, false), 0, r.decision.evaluatedAt);
  }

  /** A later record extends a released log by a prepared download, or by the hold. */
  lemma NextDraftOk(config: Config, snap: Record, r: Record)
    requires RecordOk(config, snap) && snap.decision.outcome.ReleaseReady? && Consistent(r)
    requires r == Draft(config, snap.identity, snap.context, r.decision, snap.events, true)
    ensures RecordOk(config, r)
    ensures snap.events <= r.events && |r.events| >= |snap.events| + 2
    ensures r.events[|snap.events|].kind.PolicyChecked?
    ensures r.decision.outcome.ReleaseReady? ==> |r.events| == |snap.events| + 2 && r.events[|snap.events| + 1].kind.DownloadPrepared?
    ensures r.decision.outcome.OperationsRequired? ==> |r.events| == |snap.events| + 3
    ensures r.decision.outcome.OperationsRequired? ==> !r.events[|snap.events| + 1].kind.DownloadPrepared? && !r.events[|snap.events| + 2].kind.DownloadPrepared?
  {
    SnapEvents(config, snap);
    hide Consistent, Lawful;
    DraftExtends(config, snap, r);
    var tail := Stamp(Tail(r.decision, true), |snap.events|, r.decision.evaluatedAt);
    KindsAppend(snap.events, tail);
    KindsOfStamp(Tail(r.decision, true), |snap.events|, r.decision.evaluatedAt);
    var before, kinds := Kinds(snap.events), Kinds(r.events);
    assert kinds == before + Tail(r.decision, true);
    if r.decision.outcome.ReleaseReady? {
      assert kinds[..|kinds| - 2] == before;
    } else {
      assert kinds[..|kinds| - 3] == before && kinds[|kinds| - 3..] == [PolicyChecked, Held, CaseCreated];
    }
  }

  lemma SnapEvents(config: Config, snap: Record)
    requires RecordOk(config, snap)
    ensures |snap.events| >= 3
  {
  }

  // ---------------------------------------------------------------- steps that write

  /** A record written over what was there: the log grows by its new events, each kept with its
      decision, and a held record was not there before. */
  ghost predicate Written(s: System, t: System, r: Record) {
    && t == s.(docs := t.docs)
    && HasRecord(t) && Stored(t) == r && TagOf(t) == s.docs.clock && s.docs.clock < t.docs.clock
    && (HasRecord(s) ==> Stored(s).opsCase.None? && Stored(s).identity == r.identity && Stored(s).context == r.context)
    && Log(s) <= r.events && |Log(s)| < |r.events|
    && (forall n: nat :: HasEvent(s, n) ==> HasEvent(t, n) && t.docs.docs[EventId(n)].body == s.docs.docs[EventId(n)].body)
    && (forall n: nat :: |Log(s)| < n <= |r.events| ==> HasEvent(t, n) && t.docs.docs[EventId(n)].body == EventBody(r, n))
    && Filed(t)
  }

  lemma WhatACommitWrites(r: Record, expected: nat, previous: Option<(Record, nat)>)
    ensures var writes := CommitWrites(r, expected, previous);
      && SnapshotId in writes && writes[SnapshotId].body == SnapshotDoc(r)
      && (previous.None? ==> writes[SnapshotId].Create?)
      && (previous.Some? ==> writes[SnapshotId].Replace? && writes[SnapshotId].ifMatch == previous.value.1)
      && (forall n: nat :: EventId(n) in writes <==> expected < n <= |r.events|)
      && (forall n: nat :: expected < n <= |r.events| ==> writes[EventId(n)] == Create(EventBody(r, n)))
      && var opens := r.opsCase.Some? && (previous.None? || previous.value.0.opsCase.None?);
      && (CaseId in writes <==> opens) && (OutboxId in writes <==> opens)
      && (opens ==> writes[CaseId] == Create(CaseDoc(r.opsCase.value)) && writes[OutboxId] == Create(OutboxDoc(r.opsCase.value)))
  {
  }

  lemma WriteEffect(s: System, r: Record, previous: Option<(Record, nat)>)
    requires Filed(s) && |Log(s)| < |r.events| && Log(s) <= r.events && Admits(s.docs, CommitWrites(r, |Log(s)|, previous))
    requires previous.None? ==> !HasRecord(s)
    requires previous.Some? ==>
      && HasRecord(s) && Stored(s) == previous.value.0 && previous.value.0.opsCase.None?
      && previous.value.0.identity == r.identity && previous.value.0.context == r.context
    ensures Written(s, s.(docs := Batch(s.docs, CommitWrites(r, |Log(s)|, previous))), r)
  {
    hide CommitWrites, Batch, Admits, EventBody;
    WhatACommitWrites(r, |Log(s)|, previous);
    var writes := CommitWrites(r, |Log(s)|, previous);
    BatchKeepsTags(s.docs, writes);
    BatchContents(s.docs, writes);
    var t := s.(docs := Batch(s.docs, writes));
    assert Log(t) == r.events;
    EventBodies(r);
    forall n: nat | HasEvent(s, n) ensures HasEvent(t, n) && t.docs.docs[EventId(n)].body == s.docs.docs[EventId(n)].body {
      assert EventId(n) !in writes;
    }
  }

  lemma EventBodies(r: Record)
    ensures forall n: nat :: 1 <= n <= |r.events| ==> EventBody(r, n).EventDoc? && EventBody(r, n).event == r.events[n - 1]
  {
  }

  /** Who read before the write keeps a valid snapshot, and can no longer commit. */
  lemma WrittenKeepsPosition(s: System, t: System, r: Record, p: Position)
    requires Filed(s) && PositionOk(s, p) && Written(s, t, r)
    ensures PositionOk(t, p)
  {
    hide Consistent, RecordOk, Lawful, Draft, Filed;
    if HasRecord(s) {
      FirstStays(s, t, r);
    }
  }

  lemma FirstStays(s: System, t: System, r: Record)
    requires Filed(s) && Written(s, t, r) && HasRecord(s)
    ensures HasEvent(s, 2) ==> FirstArtifact(t) == FirstArtifact(s)
    ensures FirstArtifact(s).Some? ==> FirstArtifact(t) == FirstArtifact(s)
  {
  }

  lemma WrittenKeeps(s: System, t: System, r: Record)
    requires Inv(s) && Written(s, t, r) && Grounded(t)
    ensures Inv(t) && Later(s, t)
  {
    hide PositionOk, RecordOk, Consistent, Filed;
    forall w | w in t.callers ensures PositionOk(t, t.callers[w]) {
      WrittenKeepsPosition(s, t, r, s.callers[w]);
    }
    forall i | 0 <= i < |t.answers| ensures AnswerOk(t, t.answers[i]) {
      assert AnswerOk(s, s.answers[i]);
    }
    forall i | 0 <= i < |t.releases| ensures ReleaseOk(t, t.releases[i]) {
      assert ReleaseOk(s, s.releases[i]);
    }
  }

  lemma CreateGrounds(s: System, t: System, r: Record)
    requires Inv(s) && !HasRecord(s) && Written(s, t, r) && RecordOk(s.config, r) && |r.events| >= 3
    requires r.events[1].kind.PolicyChecked? && !r.events[0].kind.DownloadPrepared?
    requires forall i :: 2 <= i < |r.events| ==> !r.events[i].kind.DownloadPrepared? && !r.events[i].kind.PolicyChecked?
    ensures Grounded(t)
  {
    hide RecordOk, Consistent, Filed;
    assert |r.events| >= 2;
    assert DecisionAt(t, 2) == Some(r.decision);
  }

  lemma CreateKeeps(s: System, w: nat, p: Position, acked: bool)
    requires Inv(s) && PositionOk(s, p) && p.Creating?
    ensures Inv(NextCreate(s, w, p, acked)) && Later(s, NextCreate(s, w, p, acked))
  {
    hide Inv, Later, Consistent, Draft, RecordOk, CommitWrites, Admits, Batch, Filed, Written, Grounded, IdentityOf;
    var r := p.draft;
    IdleKeeps(s, w);
    assert PositionOk(s, Losing(r.identity, p.context));
    GotoKeeps(s, w, Losing(r.identity, p.context));
    if Consistent(r) && Admits(s.docs, CommitWrites(r, 0, None)) {
      FirstDraftOk(s.config, r);
      CreatedIsNew(s, r);
      WriteEffect(s, r, None);
      var t := s.(docs := Batch(s.docs, CommitWrites(r, 0, None)));
      CreateGrounds(s, t, r);
      WrittenKeeps(s, t, r);
      WrittenIsStored(s, t, r);
      var u := t.(answers := t.answers + if acked then [Answer(r.identity, p.context, r)] else []);
      IdleOk(t);
      AnswerNow(t, u, w, p.context);
      LaterComposes(s, t, NextCreate(s, w, p, acked));
    }
  }

  lemma CreatedIsNew(s: System, r: Record)
    requires Inv(s) && Admits(s.docs, CommitWrites(r, 0, None))
    ensures !HasRecord(s) && Log(s) == [] && Filed(s)
  {
    WhatACommitWrites(r, 0, None);
  }

  lemma WrittenIsStored(s: System, t: System, r: Record)
    requires Written(s, t, r)
    ensures HasRecord(t) && Stored(t) == r && Log(t) == r.events && Log(s) <= Log(t)
  {
  }

  /** The caller is answered with the record just stored. */
  lemma AnswerNow(t: System, u: System, w: nat, context: Option<nat>)
    requires Inv(t) && HasRecord(t) && Stored(t).context == context
    requires u == t.(answers := u.answers) && (u.answers == t.answers + [] || u.answers == t.answers + [Answer(Stored(t).identity, context, Stored(t))])
    ensures Inv(Goto(u, w, Idle)) && Later(t, Goto(u, w, Idle))
  {
    hide PositionOk, Later, Filed, RecordOk;
    IdleOk(t);
    QuietKeeps(t, Goto(u, w, Idle));
  }

  lemma StoreGrounds(s: System, t: System, snap: Record, r: Record)
    requires Inv(s) && HasRecord(s) && Stored(s) == snap && Written(s, t, r) && Downloading(s, snap)
    requires Consistent(r) && r == Draft(s.config, snap.identity, snap.context, r.decision, snap.events, true)
    requires r.decision.outcome.ReleaseReady? ==> r.decision.artifact == snap.decision.artifact
    ensures Grounded(t) && FirstArtifact(t) == FirstArtifact(s)
    ensures r.decision.outcome.ReleaseReady? ==>
      |Log(t)| > 1 && Log(t)[|r.events| - 1].kind.DownloadPrepared? && ArtifactAt(t, |r.events| - 1) == FirstArtifact(t)
  {
    hide Consistent, RecordOk, Draft, Filed;
    NextDraftOk(s.config, snap, r);
    SnapEvents(s.config, snap);
    FiledEvents(s);
    var n := |snap.events|;
    assert HasEvent(s, 2);
    assert DecisionAt(t, n + 1) == Some(r.decision);
    forall k: nat | 1 <= k < |Log(t)| && Log(t)[k].kind.DownloadPrepared?
      ensures DecisionAt(t, k).Some? && DecisionAt(t, k).value.outcome.ReleaseReady? && ArtifactAt(t, k) == FirstArtifact(t)
    {
      if k < n {
        assert Log(s)[k] == Log(t)[k];
        assert HasEvent(s, k);
      } else {
        assert k == n + 1;
      }
    }
  }

  lemma FiledEvents(s: System)
    requires Filed(s)
    ensures forall n: nat :: 1 <= n <= |Log(s)| ==> HasEvent(s, n)
  {
  }

  lemma AdmittedIsCurrent(s: System, p: Position)
    requires Inv(s) && PositionOk(s, p) && p.Storing?
    requires Admits(s.docs, CommitWrites(p.updated, |p.snap.events|, Some((p.snap, p.etag))))
    ensures HasRecord(s) && Stored(s) == p.snap && Filed(s) && |Log(s)| == |p.snap.events| && Log(s) <= p.updated.events && |Log(s)| < |p.updated.events|
    ensures p.snap.opsCase.None? && p.snap.identity == p.updated.identity && p.snap.context == p.updated.context
  {
    WhatACommitWrites(p.updated, |p.snap.events|, Some((p.snap, p.etag)));
    DraftExtends(s.config, p.snap, p.updated);
  }

  lemma StoreKeeps(s: System, w: nat, p: Position, acked: bool)
    requires Inv(s) && PositionOk(s, p) && p.Storing?
    ensures Inv(NextStore(s, w, p, acked)) && Later(s, NextStore(s, w, p, acked))
  {
    hide Inv, Later, Consistent, Draft, RecordOk, CommitWrites, Admits, Batch, Filed, Written, Grounded, Downloading;
    var r := p.updated;
    var writes := CommitWrites(r, |p.snap.events|, Some((p.snap, p.etag)));
    IdleKeeps(s, w);
    if Admits(s.docs, writes) {
      AdmittedIsCurrent(s, p);
      WriteEffect(s, r, Some((p.snap, p.etag)));
      var t := s.(docs := Batch(s.docs, writes));
      StoreGrounds(s, t, p.snap, r);
      WrittenKeeps(s, t, r);
      WrittenIsStored(s, t, r);
      var freed := acked && r.decision.outcome.ReleaseReady? && p.pdf.Some?;
      var u := t.(releases := t.releases + if freed then [Release(p.asker, p.pdf.value.0, |r.events|, p.pdf.value.1, p.pdf.value.2)] else []);
      if freed {
        StoredArtifact(s, p.snap);
        assert ReleaseOk(t, Release(p.asker, p.pdf.value.0, |r.events|, p.pdf.value.1, p.pdf.value.2));
      }
      ReleasedKeeps(s, t, u, w, p.snap);
    }
  }

  lemma StoredArtifact(s: System, snap: Record)
    requires Downloading(s, snap)
    ensures snap.decision.artifact == FirstArtifact(s)
  {
  }

  lemma ReleasedKeeps(s: System, t: System, u: System, w: nat, snap: Record)
    requires Inv(s) && Inv(t) && Later(s, t) && HasRecord(s) && Stored(s).opsCase.None?
    requires u == t.(releases := u.releases) && t.releases <= u.releases
    requires forall i :: |t.releases| <= i < |u.releases| ==> ReleaseOk(t, u.releases[i])
    ensures Inv(Goto(u, w, Idle)) && Later(s, Goto(u, w, Idle))
  {
    hide PositionOk, Filed, Grounded;
    var v := Goto(u, w, Idle);
    assert Log(v) == Log(t) && FirstArtifact(v) == FirstArtifact(t);
    IdleOk(t);
    assert Filed(v) && Grounded(v) by {
      SameDocs(t, v);
    }
    forall x | x in v.callers ensures PositionOk(v, v.callers[x]) {
      SameDocsSamePositions(t, v, v.callers[x]);
    }
    forall i | 0 <= i < |v.answers| ensures AnswerOk(v, v.answers[i]) {
      assert AnswerOk(t, t.answers[i]);
    }
    forall i | 0 <= i < |v.releases| ensures ReleaseOk(v, v.releases[i]) {
      assert ReleaseOk(t, v.releases[i]);
    }
  }

  lemma SameDocs(s: System, t: System)
    requires Filed(s) && Grounded(s) && t.docs == s.docs && t.config == s.config
    ensures Filed(t) && Grounded(t)
  {
    hide RecordOk;
    assert Log(t) == Log(s) && FirstArtifact(t) == FirstArtifact(s);
  }

  // ---------------------------------------------------------------- every step

  lemma NextKeeps(s: System, step: Step)
    requires Inv(s)
    ensures Inv(Next(s, step)) && Later(s, Next(s, step))
  {
    hide Inv, Later, Take, PositionOk;
    var t := s.(clock := s.clock + 1);
    TimePasses(s, t, step.caller);
    TakeKeeps(t, step);
    LaterComposes(s, t, Next(s, step));
  }

  lemma TimePasses(s: System, t: System, w: nat)
    requires Inv(s) && t == s.(clock := s.clock + 1)
    ensures PositionOk(t, At(t, w)) && (At(t, w).Rechecking? ==> At(t, w).read < t.clock)
    ensures Inv(t) && Later(s, t)
  {
    hide Later, Filed, Grounded, Downloading, Concluded, Draft;
    QuietKeeps(s, t);
    assert PositionOk(s, At(s, w));
    SameDocsSamePositions(s, t, At(s, w));
  }

  lemma TakeKeeps(s: System, step: Step)
    requires Inv(s) && PositionOk(s, At(s, step.caller))
    requires At(s, step.caller).Rechecking? ==> At(s, step.caller).read < s.clock
    ensures Inv(Take(s, step)) && Later(s, Take(s, step))
  {
    hide Inv, Later, PositionOk, NextRequest, NextCreate, NextWinner, NextDownload, NextEvaluate, NextPdf, NextRecheck, NextCommit, NextStore, Draft, Lawful;
    var w, p := step.caller, At(s, step.caller);
    LaterReflexive(s);
    match step.act
    case RequestLoad(tenant, actor, equipment, context) =>
      if p.Idle? && Known(s.config, tenant, actor) { RequestKeeps(s, w, actor, equipment, context); }
    case RequestEvaluate(d) => if p.Evaluating? && Lawful(d) { DraftedKeeps(s, w, p, d); }
    case RequestStore(acked) => if p.Creating? { CreateKeeps(s, w, p, acked); }
    case RequestWinner => if p.Losing? { WinnerKeeps(s, w, p.identity, p.context); }
    case DownloadLoad(tenant, actor) => if p.Idle? && Known(s.config, tenant, actor) { DownloadKeeps(s, w, Asker(tenant, actor)); }
    case DownloadEvaluate(d) => if p.Checking? && Lawful(d) { EvaluateKeeps(s, w, p, d); }
    case DownloadRead(pdf) => if p.ReadingPdf? { PdfKeeps(s, w, p, pdf); }
    case DownloadRecheck(d) => if p.Rechecking? && Lawful(d) { RecheckKeeps(s, w, p, d); }
    case CommitLoad => if p.Committing? { CommitKeeps(s, w, p); }
    case CommitStore(acked) => if p.Storing? { StoreKeeps(s, w, p, acked); }
    case Crash => IdleKeeps(s, w);
  }

  lemma DraftedKeeps(s: System, w: nat, p: Position, d: Decision)
    requires Inv(s) && PositionOk(s, p) && p.Evaluating? && Lawful(d)
    ensures var t := Goto(s, w, Creating(Draft(s.config, p.identity, p.context, d, [], false), p.context)); Inv(t) && Later(s, t)
  {
    hide Inv, Later, Lawful, Stamp;
    var q := Creating(Draft(s.config, p.identity, p.context, d, [], false), p.context);
    assert PositionOk(s, q);
    GotoKeeps(s, w, q);
  }

  lemma LaterReflexive(s: System)
    ensures Later(s, s)
  {
  }

  lemma LaterComposes(s: System, t: System, u: System)
    requires Later(s, t) && Later(t, u)
    ensures Later(s, u)
  {
  }

  // ---------------------------------------------------------------- the results

  lemma InitialOk(config: Config)
    ensures Inv(Initial(config))
  {
  }

  lemma {:induction false} HistoryOnlyGrows(s: System, steps: seq<Step>)
    requires Inv(s)
    ensures Inv(Run(Next, s, steps)) && Later(s, Run(Next, s, steps))
  {
    hide Inv, Later, Next;
    if steps == [] {
      LaterReflexive(s);
    } else {
      var t := Run(Next, s, steps[..|steps| - 1]);
      HistoryOnlyGrows(s, steps[..|steps| - 1]);
      NextKeeps(t, steps[|steps| - 1]);
      LaterComposes(s, t, Next(t, steps[|steps| - 1]));
    }
  }

  /** In every reachable state the log follows its grammar, the event documents are the log, and
      a case and an outbox entry exist, with the record's case, exactly when the request is held. */
  lemma LogFollowsTheLifecycle(config: Config, steps: seq<Step>)
    ensures var t := Run(Next, Initial(config), steps);
      && (forall n: nat :: EventId(n) in t.docs.docs <==> 1 <= n <= |Log(t)|)
      && (CaseId in t.docs.docs <==> HasRecord(t) && HeldLog(Kinds(Log(t))))
      && (OutboxId in t.docs.docs <==> CaseId in t.docs.docs)
      && (HasRecord(t) ==>
            && Stored(t).hash == DecisionHash(Stored(t).identity, Stored(t).decision)
            && if Stored(t).opsCase.None? then ReleasedLog(Kinds(Log(t)))
               else
                 && HeldLog(Kinds(Log(t)))
                 && t.docs.docs[CaseId].body == CaseDoc(Stored(t).opsCase.value) && t.docs.docs[OutboxId].body == OutboxDoc(Stored(t).opsCase.value)
                 && Stored(t).opsCase.value.request == config.request && Stored(t).opsCase.value.assignee == config.operations
                 && (forall x :: x in Stored(t).opsCase.value.reasons <==> FailsFor(Stored(t).decision, x)))
  {
    hide Unique;
    InitialOk(config);
    HistoryOnlyGrows(Initial(config), steps);
    var t := Run(Next, Initial(config), steps);
    if HasRecord(t) {
      LogsAreDistinct(Kinds(Log(t)));
    }
  }

  /** The request is held for its artifact alone: ownership and service passed. */
  predicate HeldFor(config: Config, r: Record, reason: nat) {
    && r.decision.outcome.OperationsRequired? && r.decision.artifact.None?
    && r.decision.ownership.passed && r.decision.validity == Check(false, reason) && r.decision.service.passed
    && r.opsCase == Some(Case(config.request, config.operations, [reason]))
  }

  /** The record on its way to the store holds the request for this reason, and no bytes leave. */
  predicate TurnsToHold(config: Config, p: Position, reason: nat) {
    p.Idle? || (p.Committing? && p.pdf.None? && HeldFor(config, p.updated, reason))
  }

  /** An artifact that changed, bytes that cannot be read, and bytes that are not the released
      artifact all turn a download into a hold for exactly that reason; bytes go on to the last
      check exactly if they are the first released artifact. */
  lemma ArtifactFailuresHold(config: Config, steps: seq<Step>, w: nat, d: Decision, pdf: Option<Bytes>)
    requires Lawful(d)
    ensures var s := Run(Next, Initial(config), steps); var p := At(s, w);
      var evaluated := At(Next(s, Step(w, DownloadEvaluate(d))), w);
      var read := At(Next(s, Step(w, DownloadRead(pdf))), w);
      var rechecked := At(Next(s, Step(w, DownloadRecheck(d))), w);
      && (p.Checking? && d.artifact.Some? && d.artifact != FirstArtifact(s) ==> TurnsToHold(config, evaluated, ARTIFACT_CHANGED))
      && (p.ReadingPdf? && pdf.None? ==> TurnsToHold(config, read, ARTIFACT_UNAVAILABLE))
      && (p.ReadingPdf? ==> FirstArtifact(s).Some?)
      && (p.ReadingPdf? && pdf.Some? ==>
            var good := pdf.value.isPdf && Digest(pdf.value) == FirstArtifact(s).value.sha;
            (read.Rechecking? <==> good) && (!good ==> TurnsToHold(config, read, ARTIFACT_CHANGED)))
      && (p.Rechecking? && d.artifact.Some? && d.artifact != FirstArtifact(s) ==> TurnsToHold(config, rechecked, ARTIFACT_CHANGED))
  {
    hide Inv, Next, Run, Consistent, Lawful;
    InitialOk(config);
    HistoryOnlyGrows(Initial(config), steps);
    var s := Run(Next, Initial(config), steps);
    CallerOk(s, w);
    if d.artifact.Some? {
      FailedHolds(s, w, d);
    }
    if At(s, w).ReadingPdf? {
      FailedHolds(s, w, At(s, w).decision);
    }
    DownloadStepsAre(s, w, d, pdf);
  }

  lemma CallerOk(s: System, w: nat)
    requires Inv(s)
    ensures PositionOk(s, At(s, w))
  {
    hide PositionOk;
    IdleOk(s);
  }

  lemma DownloadStepsAre(s: System, w: nat, d: Decision, pdf: Option<Bytes>)
    requires Lawful(d)
    ensures At(s, w).Checking? ==> Next(s, Step(w, DownloadEvaluate(d))) == NextEvaluate(s.(clock := s.clock + 1), w, At(s, w), d)
    ensures At(s, w).ReadingPdf? ==> Next(s, Step(w, DownloadRead(pdf))) == NextPdf(s.(clock := s.clock + 1), w, At(s, w), pdf)
    ensures At(s, w).Rechecking? ==> Next(s, Step(w, DownloadRecheck(d))) == NextRecheck(s.(clock := s.clock + 1), w, At(s, w), d)
  {
    hide NextEvaluate, NextPdf, NextRecheck, Lawful;
  }

  /** A lawful release that fails on its artifact leaves one reason. */
  lemma FailedHolds(s: System, w: nat, d: Decision)
    requires Lawful(d) && d.artifact.Some?
    ensures forall asker: Asker, snap: Record, reason: nat, at: nat ::
      TurnsToHold(s.config, At(Conclude(s.(clock := at), w, asker, snap, Failed(d, reason), None), w), reason)
  {
    hide Consistent, Stamp;
    forall asker: Asker, snap: Record, reason: nat, at: nat
      ensures TurnsToHold(s.config, At(Conclude(s.(clock := at), w, asker, snap, Failed(d, reason), None), w), reason)
    {
      OneReason(reason);
    }
  }

  lemma OneReason(reason: nat)
    ensures Unique([] + [reason] + []) == [reason] && Unique([reason]) == [reason]
  {
    assert [] + [reason] + [] == [reason];
    assert [reason][..0] == [];
    assert Unique([]) == [];
  }

  /** A check fails for this reason. */
  predicate FailsFor(d: Decision, reason: nat) {
    || (!d.ownership.passed && d.ownership.reason == reason)
    || (!d.validity.passed && d.validity.reason == reason)
    || (!d.service.passed && d.service.reason == reason)
  }

  lemma LogsAreDistinct(kinds: seq<Kind>)
    ensures !(ReleasedLog(kinds) && HeldLog(kinds))
  {
    if |kinds| > 4 && HeldLog(kinds) {
      assert kinds[|kinds| - 1] == kinds[|kinds| - 3..][2];
    }
  }

  /** Once held, always held: the snapshot with its case never changes, and no bytes leave. */
  lemma HoldIsFinal(config: Config, first: seq<Step>, second: seq<Step>)
    requires var s := Run(Next, Initial(config), first); HasRecord(s) && Stored(s).opsCase.Some?
    ensures var s, t := Run(Next, Initial(config), first), Run(Next, Initial(config), first + second);
      HasRecord(t) && Stored(t) == Stored(s) && t.releases == s.releases
  {
    InitialOk(config);
    HistoryOnlyGrows(Initial(config), first);
    RunAppend(Next, Initial(config), first, second);
    HistoryOnlyGrows(Run(Next, Initial(config), first), second);
  }

  /** Bytes are returned only after their download was recorded; the policy check recorded just
      before it came after the bytes were read and released the very artifact of the first
      release decision; and the bytes are that artifact's. */
  lemma BytesAreReleasedArtifacts(config: Config, steps: seq<Step>, i: nat)
    requires i < |Run(Next, Initial(config), steps).releases|
    ensures var t := Run(Next, Initial(config), steps); var r := t.releases[i];
      && 1 < r.event <= |Log(t)| && Log(t)[r.event - 1].kind.DownloadPrepared?
      && DecisionAt(t, r.event - 1).Some? && DecisionAt(t, r.event - 1).value.outcome.ReleaseReady?
      && DecisionAt(t, 2).Some? && DecisionAt(t, r.event - 1).value.artifact == DecisionAt(t, 2).value.artifact
      && DecisionAt(t, 2).value.artifact.Some? && Digest(r.bytes) == DecisionAt(t, 2).value.artifact.value.sha
      && r.bytes.isPdf && r.read < r.checked
  {
    InitialOk(config);
    HistoryOnlyGrows(Initial(config), steps);
    var t := Run(Next, Initial(config), steps);
    assert ReleaseOk(t, t.releases[i]);
  }

  /** Bytes go only to the customer whose request it is, in the tenant of the workflow. */
  lemma BytesGoToTheRequester(config: Config, steps: seq<Step>, i: nat)
    requires i < |Run(Next, Initial(config), steps).releases|
    ensures var t := Run(Next, Initial(config), steps); var r := t.releases[i];
      && HasRecord(t) && r.asker.tenant == config.tenant == Stored(t).identity.tenant
      && r.asker.actor == Stored(t).identity.actor
      && r.asker.actor in config.customers && Stored(t).identity.customer == config.customers[r.asker.actor]
  {
    InitialOk(config);
    HistoryOnlyGrows(Initial(config), steps);
    var t := Run(Next, Initial(config), steps);
    assert ReleaseOk(t, t.releases[i]);
  }

  /** One request identifier is never answered for two targets, nor for a context it was not made
      with, and an answer's log is kept. */
  lemma AnswersAgree(config: Config, steps: seq<Step>, i: nat, j: nat)
    requires i < |Run(Next, Initial(config), steps).answers| && j < |Run(Next, Initial(config), steps).answers|
    ensures var t := Run(Next, Initial(config), steps);
      && t.answers[i].record.identity == t.answers[i].identity == t.answers[j].identity
      && t.answers[i].identity.actor in config.customers
      && t.answers[i].identity.customer == config.customers[t.answers[i].identity.actor]
      && (t.answers[i].context.Some? ==> t.answers[i].record.context == t.answers[i].context)
      && t.answers[i].record.events <= Log(t)
  {
    InitialOk(config);
    HistoryOnlyGrows(Initial(config), steps);
    var t := Run(Next, Initial(config), steps);
    assert AnswerOk(t, t.answers[i]) && AnswerOk(t, t.answers[j]);
  }
}
