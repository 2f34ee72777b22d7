/** `CertificateController.request` and `download` as they run: read, evaluate, commit, with the
    other callers running wherever the store or the evidence is awaited. */
module CertificateController {
  import opened Results
  import opened Certificates
  import opened CertificateSafety
  import opened DocumentStore
  import opened Traces

  datatype Failure = DeniedError | ConflictError | Unavailable | KeyError | ValidationError

  /** What one awaited moment brings: the steps of the others, a policy evaluation, the bytes of
      the certificate if they can be read, and whether a write is acknowledged. */
  datatype Moment = Moment(others: seq<Step>, decision: Decision, pdf: Option<Bytes>, acked: bool)

  type World = nat -> Moment

  /** Evaluations satisfy the decision contract. */
  ghost predicate Fair(me: nat, world: World) {
    forall n: nat :: Lawful(world(n).decision) && forall i :: 0 <= i < |world(n).others| ==> world(n).others[i].caller != me
  }

  lemma {:induction false} OthersLeaveMe(s: System, me: nat, steps: seq<Step>)
    requires forall i :: 0 <= i < |steps| ==> steps[i].caller != me
    ensures At(Run(Next, s, steps), me) == At(s, me) && Run(Next, s, steps).config == s.config
  {
    if steps != [] {
      OthersLeaveMe(s, me, steps[..|steps| - 1]);
      OtherLeavesMe(Run(Next, s, steps[..|steps| - 1]), me, steps[|steps| - 1]);
    }
  }

  lemma OtherLeavesMe(s: System, me: nat, step: Step)
    requires step.caller != me
    ensures At(Next(s, step), me) == At(s, me) && Next(s, step).config == s.config
  {
    hide Draft, Consistent, Lawful, Batch, Admits, CommitWrites, Known, Answers;
  }

  lemma NoSteps(s: System)
    ensures Run(Next, s, []) == s
  {
  }

  function Tick(s: System): System {
    s.(clock := s.clock + 1)
  }

  lemma NextIsRequest(s: System, me: nat, tenant: nat, actor: nat, equipment: nat, context: Option<nat>)
    requires At(s, me).Idle? && Known(s.config, tenant, actor)
    ensures Next(s, Step(me, RequestLoad(tenant, actor, equipment, context))) == NextRequest(Tick(s), me, IdentityOf(s.config, actor, equipment), context)
  {
  }

  lemma NextIsEvaluated(s: System, me: nat, d: Decision)
    requires Lawful(d)
    ensures At(s, me).Evaluating? ==>
      Next(s, Step(me, RequestEvaluate(d)))
        == Goto(Tick(s), me, Creating(Draft(s.config, At(s, me).identity, At(s, me).context, d, [], false), At(s, me).context))
    ensures At(s, me).Checking? ==> Next(s, Step(me, DownloadEvaluate(d))) == NextEvaluate(Tick(s), me, At(s, me), d)
    ensures At(s, me).Rechecking? ==> Next(s, Step(me, DownloadRecheck(d))) == NextRecheck(Tick(s), me, At(s, me), d)
  {
  }

  lemma NextIsStored(s: System, me: nat, acked: bool, pdf: Option<Bytes>)
    ensures At(s, me).Creating? ==> Next(s, Step(me, RequestStore(acked))) == NextCreate(Tick(s), me, At(s, me), acked)
    ensures At(s, me).Losing? ==> Next(s, Step(me, RequestWinner)) == NextWinner(Tick(s), me, At(s, me).identity, At(s, me).context)
    ensures At(s, me).ReadingPdf? ==> Next(s, Step(me, DownloadRead(pdf))) == NextPdf(Tick(s), me, At(s, me), pdf)
    ensures At(s, me).Committing? ==> Next(s, Step(me, CommitLoad)) == NextCommit(Tick(s), me, At(s, me))
    ensures At(s, me).Storing? ==> Next(s, Step(me, CommitStore(acked))) == NextStore(Tick(s), me, At(s, me), acked)
  {
  }

  lemma NextIsDownload(s: System, me: nat, tenant: nat, actor: nat)
    requires At(s, me).Idle? && Known(s.config, tenant, actor)
    ensures Next(s, Step(me, DownloadLoad(tenant, actor))) == NextDownload(Tick(s), me, Asker(tenant, actor))
  {
  }

  /** The closure of `_record` that appends one event. */
  method AddEvent(prior: seq<Event>, events: seq<Event>, ghost kinds: seq<Kind>, at: int, kind: Kind) returns (r: seq<Event>)
    requires events == prior + Stamp(kinds, |prior|, at)
    ensures r == prior + Stamp(kinds + [kind], |prior|, at)
  {
    hide Stamp;
    StampOne(kinds, |prior|, at, kind);
    r := events + [Event(|events| + 1, kind, at)];
  }

  lemma StampOne(kinds: seq<Kind>, from: nat, at: int, kind: Kind)
    ensures Stamp(kinds + [kind], from, at) == Stamp(kinds, from, at) + [Event(from + |kinds| + 1, kind, at)]
  {
  }

  lemma StampNone(from: nat, at: int)
    ensures Stamp([], from, at) == []
  {
  }

  lemma KindsOfDraft(d: Decision, first: bool, prepared: bool)
    ensures var opening := if first then [Requested] else [];
      && (d.outcome.OperationsRequired? ==> opening + [PolicyChecked] + [Held] + [CaseCreated] == opening + Tail(d, prepared))
      && (d.outcome.ReleaseReady? ==> opening + [PolicyChecked] + [if prepared then DownloadPrepared else Released] == opening + Tail(d, prepared))
      && (first ==> [] + [Requested] == opening)
  {
  }

  /** `_record`: the events of the prior record, and one more at a time. */
  method MakeRecord(config: Config, identity: Identity, context: Option<nat>, d: Decision, prior: seq<Event>, prepared: bool) returns (r: Record)
    ensures r == Draft(config, identity, context, d, prior, prepared)
  {
    hide Stamp, Reasons, Tail;
    var events, at := prior, d.evaluatedAt;
    StampNone(|prior|, at);
    ghost var opening: seq<Kind> := if prior == [] then [Requested] else [];
    KindsOfDraft(d, prior == [], prepared);
    if prior == [] {
      events := AddEvent(prior, events, [], at, Requested);
    }
    events := AddEvent(prior, events, opening, at, PolicyChecked);
    var opsCase := None;
    if d.outcome.OperationsRequired? {
      events := AddEvent(prior, events, opening + [PolicyChecked], at, Held);
      opsCase := Some(Case(config.request, config.operations, Reasons(d)));
      events := AddEvent(prior, events, opening + [PolicyChecked] + [Held], at, CaseCreated);
    } else {
      events := AddEvent(prior, events, opening + [PolicyChecked], at, if prepared then DownloadPrepared else Released);
    }
    r := Record(identity, context, d, DecisionHash(identity, d), opsCase, events);
  }

  class Controller {
    const config: Config
    var docs: Partition<DocId, Doc>
    var callers: map<nat, Position>
    var clock: nat
    var answers: seq<Answer>
    var releases: seq<Release>

    constructor (config: Config)
      ensures State() == Initial(config)
    {
      this.config := config;
      docs, callers, clock, answers, releases := Partition(map[], 0), map[], 0, [], [];
    }

    function State(): System
      reads this
    {
      System(config, docs, callers, clock, answers, releases)
    }

    method Await(me: nat, others: seq<Step>)
      requires forall i :: 0 <= i < |others| ==> others[i].caller != me
      modifies this
      ensures State() == Run(Next, old(State()), others)
      ensures At(State(), me) == old(At(State(), me))
    {
      OthersLeaveMe(State(), me, others);
      var s := Run(Next, State(), others);
      docs, callers, clock, answers, releases := s.docs, s.callers, s.clock, s.answers, s.releases;
    }

    /** `request`: an existing record answers an identical request; otherwise the first commit,
        and after a conflict the winner's record. */
    method Request(me: nat, tenant: nat, actor: nat, equipment: nat, context: Option<nat>, world: World)
      returns (r: Result<Record, Failure>, ghost trace: seq<Step>)
      requires Fair(me, world) && At(State(), me) == Idle
      modifies this
      ensures State() == Run(Next, old(State()), trace)
      ensures At(State(), me) == Idle
      ensures r.Ok? ==> tenant == config.tenant && actor in config.customers
      ensures r.Ok? ==> |answers| > 0
      ensures r.Ok? ==>
        answers[|answers| - 1] == Answer(Identity(config.request, tenant, actor, config.customers[actor], equipment), context, r.value)
      ensures r.Ok? && old(Inv(State())) ==>
        && r.value.identity == Identity(config.request, tenant, actor, config.customers[actor], equipment)
        && (context.Some? ==> r.value.context == context)
      ensures tenant != config.tenant || actor !in config.customers ==> r == Err(DeniedError) && State() == old(State())
      ensures old(Inv(State())) ==> Inv(State())
    {
      hide Next, Run, Inv, Draft, Consistent, Batch, Admits, CommitWrites, Lawful, Answers;
      ghost var s0 := State();
      NoSteps(s0);
      KeptAlong(s0, []);
      if tenant != config.tenant || actor !in config.customers {
        return Err(DeniedError), [];
      }
      var identity := IdentityOf(config, actor, equipment);
      NextIsRequest(s0, me, tenant, actor, equipment, context);
      RunExtend(Next, s0, s0, [], [], s0, Step(me, RequestLoad(tenant, actor, equipment, context)));
      trace := [] + [] + [Step(me, RequestLoad(tenant, actor, equipment, context))];
      clock := clock + 1;
      if HasRecord(State()) {
        r := AnswerFrom(me, identity, context);
        KeptAlong(s0, trace);
        AnsweredAlong(s0, trace);
        return;
      }
      callers := callers[me := Evaluating(identity, context)];
      r, trace := Create(me, identity, context, world, s0, trace);
      KeptAlong(s0, trace);
      AnsweredAlong(s0, trace);
    }

    /** The stored record, if it is for the identical target. */
    method AnswerFrom(me: nat, identity: Identity, context: Option<nat>) returns (r: Result<Record, Failure>)
      modifies this
      ensures State() == NextWinner(old(State()), me, identity, context)
      ensures r.Ok? ==> |answers| > 0 && answers[|answers| - 1] == Answer(identity, context, r.value)
    {
      if !HasRecord(State()) {
        callers := callers[me := Idle];
        return Err(KeyError);
      }
      var existing := docs.docs[SnapshotId].body.record;
      callers := callers[me := Idle];
      if existing.identity != identity || existing.hash != DecisionHash(existing.identity, existing.decision)
         || (context.Some? && existing.context != context) {
        return Err(DeniedError);
      }
      answers := answers + [Answer(identity, context, existing)];
      r := Ok(existing);
    }

    method Create(me: nat, identity: Identity, context: Option<nat>, world: World, ghost s0: System, ghost prior: seq<Step>)
      returns (r: Result<Record, Failure>, ghost trace: seq<Step>)
      requires Fair(me, world) && At(State(), me) == Evaluating(identity, context) && State() == Run(Next, s0, prior)
      modifies this
      ensures State() == Run(Next, s0, trace)
      ensures At(State(), me) == Idle
      ensures r.Ok? ==> |answers| > 0 && answers[|answers| - 1] == Answer(identity, context, r.value)
    {
      hide Next, Run, Draft, Consistent, Batch, Admits, CommitWrites, Lawful;
      ghost var s1 := State();
      Await(me, world(0).others);
      ghost var s2 := State();
      var decision := world(0).decision;
      NextIsEvaluated(s2, me, decision);
      RunExtend(Next, s0, s1, prior, world(0).others, s2, Step(me, RequestEvaluate(decision)));
      trace := prior + world(0).others + [Step(me, RequestEvaluate(decision))];
      var draft := MakeRecord(config, identity, context, decision, [], false);
      clock, callers := clock + 1, callers[me := Creating(draft, context)];

      DraftNames(config, identity, context, decision);
      r, trace := StoreFirst(me, draft, context, world, s0, trace);
    }

    /** The first commit, and after a conflict the winner. */
    method StoreFirst(me: nat, draft: Record, context: Option<nat>, world: World, ghost s0: System, ghost prior: seq<Step>)
      returns (r: Result<Record, Failure>, ghost trace: seq<Step>)
      requires Fair(me, world) && At(State(), me) == Creating(draft, context) && State() == Run(Next, s0, prior)
      modifies this
      ensures State() == Run(Next, s0, trace)
      ensures At(State(), me) == Idle
      ensures r.Ok? ==> |answers| > 0 && answers[|answers| - 1] == Answer(draft.identity, context, r.value)
    {
      hide Next, Run, Consistent, Batch, Admits, CommitWrites, Lawful, NextWinner;
      ghost var s3 := State();
      Await(me, world(1).others);
      ghost var s4 := State();
      var acked := world(1).acked;
      NextIsStored(s4, me, acked, None);
      RunExtend(Next, s0, s3, prior, world(1).others, s4, Step(me, RequestStore(acked)));
      trace := prior + world(1).others + [Step(me, RequestStore(acked))];
      clock := clock + 1;
      if !Consistent(draft) {
        callers := callers[me := Idle];
        return Err(ValidationError), trace;
      }
      var operations := CommitWrites(draft, 0, None);
      if Admits(docs, operations) {
        docs := Batch(docs, operations);
        callers := callers[me := Idle];
        if !acked {
          assert s4.answers + [] == s4.answers;
          return Err(Unavailable), trace;
        }
        answers := answers + [Answer(draft.identity, context, draft)];
        return Ok(draft), trace;
      }
      callers := callers[me := Losing(draft.identity, context)];
      r, trace := Lose(me, draft.identity, context, world, s0, trace);
    }

    /** A concurrent winner may only be returned for the identical request. */
    method Lose(me: nat, identity: Identity, context: Option<nat>, world: World, ghost s0: System, ghost prior: seq<Step>)
      returns (r: Result<Record, Failure>, ghost trace: seq<Step>)
      requires Fair(me, world) && At(State(), me) == Losing(identity, context) && State() == Run(Next, s0, prior)
      modifies this
      ensures State() == Run(Next, s0, trace)
      ensures At(State(), me) == Idle
      ensures r.Ok? ==> |answers| > 0 && answers[|answers| - 1] == Answer(identity, context, r.value)
    {
      hide Next, Run, NextWinner;
      ghost var s1 := State();
      Await(me, world(2).others);
      ghost var s2 := State();
      NextIsStored(s2, me, true, None);
      RunExtend(Next, s0, s1, prior, world(2).others, s2, Step(me, RequestWinner));
      trace := prior + world(2).others + [Step(me, RequestWinner)];
      clock := clock + 1;
      r := AnswerFrom(me, identity, context);
      WinnerIsIdle(Tick(s2), me, identity, context);
    }

    /** `download`: the policy, the bytes, and the policy once more, before anything is recorded;
        the bytes are returned only after the record is. */
    method Download(me: nat, tenant: nat, actor: nat, world: World) returns (r: Result<Bytes, Failure>, ghost trace: seq<Step>)
      requires Fair(me, world) && At(State(), me) == Idle
      modifies this
      ensures State() == Run(Next, old(State()), trace)
      ensures At(State(), me) == Idle
      ensures r.Ok? ==> tenant == config.tenant && actor in config.customers
      ensures r.Ok? ==> |releases| > 0 && releases[|releases| - 1].bytes == r.value && releases[|releases| - 1].asker == Asker(tenant, actor)
      ensures r.Ok? && old(Inv(State())) ==> ReleaseOk(State(), releases[|releases| - 1])
      ensures r.Ok? && old(Inv(State())) ==>
        && HasRecord(State()) && Stored(State()).identity.tenant == tenant && Stored(State()).identity.actor == actor
        && Stored(State()).identity.customer == config.customers[actor]
      ensures tenant != config.tenant || actor !in config.customers ==> r == Err(DeniedError) && State() == old(State())
      ensures old(Inv(State())) ==> Inv(State())
    {
      hide Next, Run, Inv, Draft, Consistent, Batch, Admits, CommitWrites, Lawful, ReleaseOk;
      ghost var s0 := State();
      NoSteps(s0);
      KeptAlong(s0, []);
      if tenant != config.tenant || actor !in config.customers {
        return Err(DeniedError), [];
      }
      NextIsDownload(s0, me, tenant, actor);
      RunExtend(Next, s0, s0, [], [], s0, Step(me, DownloadLoad(tenant, actor)));
      trace := [] + [] + [Step(me, DownloadLoad(tenant, actor))];
      KeptAlong(s0, trace);
      clock := clock + 1;
      if !HasRecord(State()) {
        callers := callers[me := Idle];
        return Err(KeyError), trace;
      }
      var record, asker := docs.docs[SnapshotId].body.record, Asker(tenant, actor);
      if record.identity != IdentityOf(config, actor, record.identity.equipment)
         || record.hash != DecisionHash(record.identity, record.decision) || record.decision.outcome.OperationsRequired? {
        callers := callers[me := Idle];
        return Err(DeniedError), trace;
      }
      callers := callers[me := Checking(asker, record)];
      var pdf, updated;
      pdf, updated, trace := Check(me, asker, record, world, s0, trace);
      if updated.None? {
        r := Err(ValidationError);
      } else {
        r, trace := Commit(me, asker, record, updated.value, pdf, world, s0, trace);
      }
      KeptAlong(s0, trace);
      ReleasedAlong(s0, trace);
    }

    /** The evaluations and the byte read. None where the record made of them is not valid. */
    method Check(me: nat, asker: Asker, record: Record, world: World, ghost s0: System, ghost prior: seq<Step>)
      returns (pdf: Option<(Bytes, nat, nat)>, updated: Option<Record>, ghost trace: seq<Step>)
      requires Fair(me, world) && At(State(), me) == Checking(asker, record) && State() == Run(Next, s0, prior)
      modifies this
      ensures State() == Run(Next, s0, trace)
      ensures At(State(), me) == if updated.None? then Idle else Committing(asker, record, updated.value, pdf)
    {
      hide Next, Run, Draft, Consistent, Lawful, Conclude, Failed;
      ghost var s1 := State();
      Await(me, world(0).others);
      ghost var s2 := State();
      var decision := world(0).decision;
      NextIsEvaluated(s2, me, decision);
      RunExtend(Next, s0, s1, prior, world(0).others, s2, Step(me, DownloadEvaluate(decision)));
      trace := prior + world(0).others + [Step(me, DownloadEvaluate(decision))];
      clock := clock + 1;
      if decision.artifact.None? {
        pdf, updated := Finish(me, asker, record, decision, None);
        return;
      }
      if decision.artifact != record.decision.artifact {
        pdf, updated := Finish(me, asker, record, Failed(decision, ARTIFACT_CHANGED), None);
        return;
      }
      callers := callers[me := ReadingPdf(asker, record, decision)];
      pdf, updated, trace := ReadAndRecheck(me, asker, record, decision, world, s0, trace);
    }

    /** The bytes, their digest, and the policy once more. */
    method ReadAndRecheck(me: nat, asker: Asker, record: Record, first: Decision, world: World, ghost s0: System, ghost prior: seq<Step>)
      returns (pdf: Option<(Bytes, nat, nat)>, updated: Option<Record>, ghost trace: seq<Step>)
      requires Fair(me, world) && At(State(), me) == ReadingPdf(asker, record, first) && State() == Run(Next, s0, prior) && first.artifact.Some?
      modifies this
      ensures State() == Run(Next, s0, trace)
      ensures At(State(), me) == if updated.None? then Idle else Committing(asker, record, updated.value, pdf)
    {
      hide Next, Run, Draft, Consistent, Lawful, Conclude, Failed;
      ghost var s3 := State();
      Await(me, world(1).others);
      ghost var s4 := State();
      var bytes := world(1).pdf;
      NextIsStored(s4, me, true, bytes);
      RunExtend(Next, s0, s3, prior, world(1).others, s4, Step(me, DownloadRead(bytes)));
      trace := prior + world(1).others + [Step(me, DownloadRead(bytes))];
      clock := clock + 1;
      if bytes.None? {
        pdf, updated := Finish(me, asker, record, Failed(first, ARTIFACT_UNAVAILABLE), None);
        return;
      }
      if !bytes.value.isPdf || Digest(bytes.value) != first.artifact.value.sha {
        pdf, updated := Finish(me, asker, record, Failed(first, ARTIFACT_CHANGED), None);
        return;
      }
      var readAt := clock;
      callers := callers[me := Rechecking(asker, record, bytes.value, readAt)];
      pdf, updated, trace := Recheck(me, asker, record, bytes.value, readAt, world, s0, trace);
    }

    method Recheck(me: nat, asker: Asker, record: Record, bytes: Bytes, readAt: nat, world: World, ghost s0: System, ghost prior: seq<Step>)
      returns (pdf: Option<(Bytes, nat, nat)>, updated: Option<Record>, ghost trace: seq<Step>)
      requires Fair(me, world) && At(State(), me) == Rechecking(asker, record, bytes, readAt) && State() == Run(Next, s0, prior)
      modifies this
      ensures State() == Run(Next, s0, trace)
      ensures At(State(), me) == if updated.None? then Idle else Committing(asker, record, updated.value, pdf)
    {
      hide Next, Run, Draft, Consistent, Lawful, Conclude, Failed;
      ghost var s5 := State();
      Await(me, world(2).others);
      ghost var s6 := State();
      var decision := world(2).decision;
      NextIsEvaluated(s6, me, decision);
      RunExtend(Next, s0, s5, prior, world(2).others, s6, Step(me, DownloadRecheck(decision)));
      trace := prior + world(2).others + [Step(me, DownloadRecheck(decision))];
      clock := clock + 1;
      if decision.artifact.Some? && decision.artifact != record.decision.artifact {
        pdf, updated := Finish(me, asker, record, Failed(decision, ARTIFACT_CHANGED), None);
      } else {
        pdf, updated := Finish(me, asker, record, decision, if decision.outcome.ReleaseReady? then Some((bytes, readAt)) else None);
      }
    }

    /** The record the final decision makes. */
    method Finish(me: nat, asker: Asker, record: Record, decision: Decision, bytes: Option<(Bytes, nat)>)
      returns (pdf: Option<(Bytes, nat, nat)>, updated: Option<Record>)
      modifies this
      ensures State() == Conclude(old(State()), me, asker, record, decision, bytes)
      ensures At(State(), me) == if updated.None? then Idle else Committing(asker, record, updated.value, pdf)
    {
      hide Draft, Consistent;
      var draft := MakeRecord(config, record.identity, record.context, decision, record.events, true);
      pdf := if bytes.None? then None else Some((bytes.value.0, bytes.value.1, clock));
      updated := if Consistent(draft) then Some(draft) else None;
      callers := callers[me := if updated.None? then Idle else Committing(asker, record, draft, pdf)];
    }

    /** `commit`: the stored events must be the ones that were read, the identity and an existing
        case must stand, and the batch must find the tag it read. */
    method Commit(me: nat, asker: Asker, record: Record, updated: Record, pdf: Option<(Bytes, nat, nat)>, world: World,
                  ghost s0: System, ghost prior: seq<Step>)
      returns (r: Result<Bytes, Failure>, ghost trace: seq<Step>)
      requires Fair(me, world) && At(State(), me) == Committing(asker, record, updated, pdf) && State() == Run(Next, s0, prior)
      modifies this
      ensures State() == Run(Next, s0, trace)
      ensures At(State(), me) == Idle
      ensures r.Ok? ==> |releases| > 0 && releases[|releases| - 1].bytes == r.value && releases[|releases| - 1].asker == asker
    {
      hide Next, Run, Draft, Consistent, Batch, Admits, CommitWrites;
      ghost var s1 := State();
      Await(me, world(3).others);
      ghost var s2 := State();
      NextIsStored(s2, me, true, None);
      RunExtend(Next, s0, s1, prior, world(3).others, s2, Step(me, CommitLoad));
      trace := prior + world(3).others + [Step(me, CommitLoad)];
      clock := clock + 1;
      var expected := |record.events|;
      if !Consistent(updated) || |updated.events| <= expected || |updated.events| - expected > 97 || !HasRecord(State()) {
        callers := callers[me := Idle];
        return Err(ConflictError), trace;
      }
      var previous, etag := docs.docs[SnapshotId].body.record, docs.docs[SnapshotId].etag;
      if |previous.events| != expected || previous.events != updated.events[..expected]
         || previous.identity != updated.identity || previous.context != updated.context
         || (previous.opsCase.Some? && previous.opsCase != updated.opsCase) {
        callers := callers[me := Idle];
        return Err(ConflictError), trace;
      }
      callers := callers[me := Storing(asker, previous, updated, pdf, etag)];
      r, trace := Store(me, asker, previous, updated, pdf, etag, world, s0, trace);
    }

    method Store(me: nat, asker: Asker, previous: Record, updated: Record, pdf: Option<(Bytes, nat, nat)>, etag: nat, world: World,
                 ghost s0: System, ghost prior: seq<Step>)
      returns (r: Result<Bytes, Failure>, ghost trace: seq<Step>)
      requires Fair(me, world) && At(State(), me) == Storing(asker, previous, updated, pdf, etag) && State() == Run(Next, s0, prior)
      modifies this
      ensures State() == Run(Next, s0, trace)
      ensures At(State(), me) == Idle
      ensures r.Ok? ==> |releases| > 0 && releases[|releases| - 1].bytes == r.value && releases[|releases| - 1].asker == asker
    {
      hide Next, Run, Batch, Admits, CommitWrites;
      ghost var s3 := State();
      Await(me, world(4).others);
      ghost var s4 := State();
      var acked := world(4).acked;
      NextIsStored(s4, me, acked, None);
      RunExtend(Next, s0, s3, prior, world(4).others, s4, Step(me, CommitStore(acked)));
      trace := prior + world(4).others + [Step(me, CommitStore(acked))];
      clock, callers := clock + 1, callers[me := Idle];
      var operations := CommitWrites(updated, |previous.events|, Some((previous, etag)));
      if !Admits(docs, operations) {
        return Err(ConflictError), trace;
      }
      docs := Batch(docs, operations);
      assert s4.releases + [] == s4.releases;
      if !acked {
        return Err(Unavailable), trace;
      }
      if !updated.decision.outcome.ReleaseReady? || pdf.None? {
        return Err(DeniedError), trace;
      }
      releases := releases + [Release(asker, pdf.value.0, |updated.events|, pdf.value.1, pdf.value.2)];
      r := Ok(pdf.value.0);
    }
  }

  lemma DraftNames(config: Config, identity: Identity, context: Option<nat>, d: Decision)
    ensures Draft(config, identity, context, d, [], false).identity == identity
  {
    hide Stamp, Reasons, Tail;
  }

  lemma WinnerIsIdle(s: System, me: nat, identity: Identity, context: Option<nat>)
    ensures At(NextWinner(s, me, identity, context), me) == Idle
  {
  }

  lemma KeptAlong(s: System, steps: seq<Step>)
    ensures Inv(s) ==> Inv(Run(Next, s, steps))
  {
    if Inv(s) {
      HistoryOnlyGrows(s, steps);
    }
  }

  lemma AnsweredAlong(s: System, steps: seq<Step>)
    ensures var t := Run(Next, s, steps); Inv(s) && |t.answers| > 0 ==>
      var a := t.answers[|t.answers| - 1]; a.record.identity == a.identity && (a.context.Some? ==> a.record.context == a.context)
  {
    if Inv(s) {
      HistoryOnlyGrows(s, steps);
      var t := Run(Next, s, steps);
      if |t.answers| > 0 {
        assert AnswerOk(t, t.answers[|t.answers| - 1]);
      }
    }
  }

  lemma ReleasedAlong(s: System, steps: seq<Step>)
    ensures var t := Run(Next, s, steps); Inv(s) && |t.releases| > 0 ==> ReleaseOk(t, t.releases[|t.releases| - 1])
    ensures var t := Run(Next, s, steps); Inv(s) && |t.releases| > 0 ==> HasRecord(t) && Entitled(t.config, Stored(t), t.releases[|t.releases| - 1].asker)
  {
    if Inv(s) {
      HistoryOnlyGrows(s, steps);
    }
  }
}
