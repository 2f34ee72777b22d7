/** `CoverageController`, the staff review in front of it, and the customer's `start` that drives it,
    as they run: every transition is a read and one conditional commit, with the other callers
    running wherever the store or the agent is awaited. */
module CoverageController {
  import opened Results
  import opened CoverageRecords
  import opened CoverageRenewal
  import opened CoverageSafety
  import opened CoverageExecution
  import History = CoverageHistory
  import opened DocumentStore
  import opened Traces

  // ---------------------------------------------------------------- single steps, unfolded

  lemma NextIsMoved(s: System, me: nat)
    ensures var p := At(s, me);
      && (p.Beginning? ==> Next(s, Step(me, LoadBegin)) == Moving(s, me, p.q, EvidenceAssembling, if p.driving then Investigating(p.q) else Idle))
      && (p.Holding? ==> Next(s, Step(me, LoadHold)) == Moving(s, me, p.q, EvidenceHold, Idle))
      && (p.Presenting? ==> Next(s, Step(me, LoadPresent)) == Moving(s, me, p.q, AwaitingOperations, Idle))
      && (p.Escalating? ==> Next(s, Step(me, LoadEscalate)) == Moving(s, me, p.q, AwaitingManager, Idle))
  {
    hide Moving;
  }

  lemma NextIsVerified(s: System, me: nat, finding: Finding)
    ensures At(s, me).Verifying? ==> Next(s, Step(me, LoadVerify(finding))) == NextVerify(s, me, At(s, me), finding)
    ensures At(s, me).Drafting? ==> Next(s, Step(me, LoadDraft)) == NextDraft(s, me, At(s, me))
  {
    hide NextVerify, NextDraft;
  }

  lemma NextIsDecided(s: System, me: nat, now: int, year: int, id: nat)
    ensures At(s, me).OperationsDeciding? ==> Next(s, Step(me, LoadOperations(now, id))) == NextOperations(s, me, At(s, me), now, id)
    ensures At(s, me).ManagerDeciding? ==> Next(s, Step(me, LoadManager(now, year, id))) == NextManager(s, me, At(s, me), now, year, id)
  {
    hide NextOperations, NextManager;
  }

  lemma NextIsStarted(s: System, me: nat, q: nat, customer: nat, equipment: nat, acked: bool, ok: bool)
    ensures At(s, me).Idle? ==> Next(s, Step(me, Act.Start(q, customer, equipment, acked))) == NextStart(s, me, q, customer, equipment, acked)
    ensures At(s, me).Investigating? ==> Next(s, Step(me, AgentAnswers(ok))) == Goto(s, me, if ok then Verifying(At(s, me).q) else Holding(At(s, me).q))
  {
    hide NextStart;
  }

  lemma NextIsReviewed(s: System, me: nat, q: nat, actor: ObjectId, command: Command, byManager: bool)
    requires At(s, me).Idle?
    ensures Next(s, Step(me, Review(q, actor, command, byManager))) == NextReview(s, me, q, actor, command, byManager)
  {
    hide NextReview;
  }

  lemma StepsAlong(s: System, steps: seq<Step>)
    requires Inv(s)
    ensures Inv(Run(Next, s, steps)) && Grown(s, Run(Next, s, steps))
  {
    hide Inv, Next, Run;
    HistoryOnlyGrows(s, steps);
  }

  lemma RecordIsOk(s: System, q: nat)
    requires Inv(s) && HasRecord(s, q)
    ensures Rec(s, q).request == q && RecordOk(s.config, Rec(s, q))
  {
    hide Inv, RecordOk;
    RecordFacts(s, q);
  }

  /** Unless investigations are driven otherwise, a package that is there stays. */
  lemma PackageStays(s: System, t: System, q: nat)
    requires Grown(s, t) && HasRecord(s, q) && Rec(s, q).hash.Some? && !s.config.redriven && RecordOk(s.config, Rec(s, q))
    ensures HasRecord(t, q) && Rec(t, q).hash == Rec(s, q).hash
  {
  }

  /** What the store holds for this request is this record. */
  predicate Holds(s: System, r: Record) {
    HasRecord(s, r.request) && Rec(s, r.request) == r
  }

  /** The decision as the reviewer sent it. */
  predicate Decides(r: Record, actor: ObjectId, command: Command, byManager: bool) {
    if byManager then
      r.manager.Some? && r.manager.value.actor == actor && r.manager.value.verdict == command.verdict && r.manager.value.reason == command.reason
    else
      r.operations.Some? && r.operations.value.actor == actor && r.operations.value.verdict == command.verdict
      && r.operations.value.reason == command.reason && r.operations.value.note == command.note
  }

  /** The decision is the one built in this call. */
  predicate BuiltNow(r: Record, byManager: bool, id: nat, now: int, year: int) {
    if byManager then r.manager.Some? && r.manager.value.id == id && r.manager.value.at == now && r.manager.value.year == year
    else r.operations.Some? && r.operations.value.id == id && r.operations.value.at == now
  }

  class Controller {
    /** The store that all the services share. */
    const shared: Executor

    constructor (shared: Executor)
      ensures this.shared == shared
    {
      this.shared := shared;
    }

    // -------------------------------------------------------------- _advance

    /** `_advance`: the target must be listed; the new snapshot replaces the one that was read, with its event. */
    method Advance(me: nat, prior: Record, etag: nat, target: RenewalState, updated: Record, done: Position,
                   world: World, tick: nat, ghost s0: System, ghost before: seq<Step>)
      returns (r: Result<Record, Failure>, ghost trace: seq<Step>)
      requires LeavesMeAlone(me, world)
      requires CoverageRenewal.Advance(shared.State(), me, prior, etag, target, updated, done) == Run(Next, s0, before)
      modifies shared
      ensures shared.State() == Run(Next, s0, trace)
      ensures At(shared.State(), me) == if r.Ok? then done else Idle
      ensures r.Ok? ==> CanTransition(prior.state, target) && Holds(shared.State(), r.value)
      ensures r.Ok? ==> r.value == updated.(state := target, revision := prior.revision + 1)
    {
      hide Next, Run, CanTransition;
      trace := before;
      if !CanTransition(prior.state, target) {
        shared.callers := shared.callers[me := Idle];
        return Err(NotAuthorized), trace;
      }
      var next := updated.(state := target, revision := prior.revision + 1);
      shared.callers := shared.callers[me := Committing(prior, next, etag, done)];
      var ok;
      ok, trace := shared.CommitRecord(me, prior, next, etag, done, world, tick, s0, before);
      r := if ok then Ok(next) else Err(ConflictRaised);
    }

    /** A read, and an advance that changes nothing but the state. */
    method Move(me: nat, q: nat, target: RenewalState, done: Position, world: World, tick: nat, ghost s0: System, ghost before: seq<Step>)
      returns (r: Result<Record, Failure>, ghost trace: seq<Step>)
      requires LeavesMeAlone(me, world) && Inv(shared.State())
      requires Moving(shared.State(), me, q, target, done) == Run(Next, s0, before)
      modifies shared
      ensures shared.State() == Run(Next, s0, trace)
      ensures At(shared.State(), me) == if r.Ok? then done else Idle
      ensures r.Ok? ==> old(HasRecord(shared.State(), q)) && Holds(shared.State(), r.value)
      ensures r.Ok? ==> var was := old(Rec(shared.State(), q));
        CanTransition(was.state, target) && was.request == q && r.value == was.(state := target, revision := was.revision + 1)
    {
      hide Next, Run, Inv, CanTransition;
      if !HasRecord(shared.State(), q) {
        shared.callers := shared.callers[me := Idle];
        return Err(ErrorRaised), before;
      }
      RecordIsOk(shared.State(), q);
      var record, etag := shared.docs.docs[RecordId(q)].body.record, shared.docs.docs[RecordId(q)].etag;
      r, trace := Advance(me, record, etag, target, record, done, world, tick, s0, before);
    }

    // -------------------------------------------------------------- investigation

    method BeginInvestigation(me: nat, q: nat, driving: bool, world: World, tick: nat, ghost s0: System, ghost before: seq<Step>)
      returns (r: Result<Record, Failure>, ghost trace: seq<Step>)
      requires LeavesMeAlone(me, world) && Inv(s0)
      requires At(shared.State(), me) == Beginning(q, driving) && shared.State() == Run(Next, s0, before)
      modifies shared
      ensures shared.State() == Run(Next, s0, trace)
      ensures At(shared.State(), me) == if r.Ok? && driving then Investigating(q) else Idle
      ensures r.Ok? ==> Holds(shared.State(), r.value) && r.value.request == q && r.value.state.EvidenceAssembling?
    {
      hide Next, Run, Inv, Moving;
      ghost var s1 := shared.State();
      shared.Await(me, world(tick).others);
      NextIsMoved(shared.State(), me);
      trace := shared.Extend(s0, before, s1, world(tick).others, Step(me, LoadBegin));
      AlsoHere(s0, before, s1, world(tick).others, shared.State());
      r, trace := Move(me, q, EvidenceAssembling, if driving then Investigating(q) else Idle, world, tick + 1, s0, trace);
    }

    method HoldInvestigation(me: nat, q: nat, world: World, tick: nat, ghost s0: System, ghost before: seq<Step>)
      returns (r: Result<Record, Failure>, ghost trace: seq<Step>)
      requires LeavesMeAlone(me, world) && Inv(s0) && At(shared.State(), me) == Holding(q) && shared.State() == Run(Next, s0, before)
      modifies shared
      ensures shared.State() == Run(Next, s0, trace) && At(shared.State(), me) == Idle
      ensures r.Ok? ==> Holds(shared.State(), r.value) && r.value.request == q && r.value.state.EvidenceHold?
    {
      hide Next, Run, Inv, Moving;
      ghost var s1 := shared.State();
      shared.Await(me, world(tick).others);
      NextIsMoved(shared.State(), me);
      trace := shared.Extend(s0, before, s1, world(tick).others, Step(me, LoadHold));
      AlsoHere(s0, before, s1, world(tick).others, shared.State());
      r, trace := Move(me, q, EvidenceHold, Idle, world, tick + 1, s0, trace);
    }

    /** `verify_eligibility`: anything but an eligible finding holds; an eligible one drafts the package. */
    method VerifyEligibility(me: nat, q: nat, finding: Finding, world: World, tick: nat, ghost s0: System, ghost before: seq<Step>)
      returns (r: Result<Record, Failure>, ghost trace: seq<Step>)
      requires LeavesMeAlone(me, world) && Inv(s0) && At(shared.State(), me) == Verifying(q) && shared.State() == Run(Next, s0, before)
      modifies shared
      ensures shared.State() == Run(Next, s0, trace) && At(shared.State(), me) == Idle
      ensures r.Ok? ==> Holds(shared.State(), r.value) && r.value.request == q
      ensures r.Ok? ==> if finding.Eligible? then r.value.state.AwaitingOperations? && Sealed(r.value) else r.value.state.EvidenceHold?
      ensures r.Ok? && finding.Eligible? ==> finding.content.Some?
      ensures r.Ok? && finding.Eligible? && !shared.config.redriven ==> r.value.package.value.content == finding.content.value
    {
      hide Next, Run, Inv, Moving, Sealed;
      ghost var s1 := shared.State();
      shared.Await(me, world(tick).others);
      NextIsVerified(shared.State(), me, finding);
      trace := shared.Extend(s0, before, s1, world(tick).others, Step(me, LoadVerify(finding)));
      AlsoHere(s0, before, s1, world(tick).others, shared.State());
      if !finding.Eligible? {
        r, trace := Move(me, q, EvidenceHold, Idle, world, tick + 1, s0, trace);
        return;
      }
      if !HasRecord(shared.State(), q) {
        shared.callers := shared.callers[me := Idle];
        return Err(ErrorRaised), trace;
      }
      var record := shared.docs.docs[RecordId(q)].body.record;
      var package := Package(q, 1, record.customer, record.equipment, COVERAGE_MONTHS, if finding.content.Some? then finding.content.value else 0);
      r, trace := Move(me, q, EligibilityVerified, if finding.content.None? then Idle else Drafting(q, package), world, tick + 1, s0, trace);
      if r.Ok? && finding.content.None? {
        r := Err(ErrorRaised);
      } else if r.Ok? {
        r, trace := DraftPackage(me, q, package, world, tick + 2, s0, trace);
      }
    }

    /** `_draft_package`, from the assembled package on: stored with its hash, and presented. */
    method DraftPackage(me: nat, q: nat, package: Package, world: World, tick: nat, ghost s0: System, ghost before: seq<Step>)
      returns (r: Result<Record, Failure>, ghost trace: seq<Step>)
      requires LeavesMeAlone(me, world) && Inv(s0) && At(shared.State(), me) == Drafting(q, package) && shared.State() == Run(Next, s0, before)
      modifies shared
      ensures shared.State() == Run(Next, s0, trace) && At(shared.State(), me) == Idle
      ensures r.Ok? ==> Holds(shared.State(), r.value) && r.value.request == q && r.value.state.AwaitingOperations? && Sealed(r.value)
      ensures r.Ok? && !shared.config.redriven ==> r.value.package == Some(package)
    {
      hide Next, Run, Inv, Moving, Sealed, Grown;
      ghost var s1 := shared.State();
      shared.Await(me, world(tick).others);
      NextIsVerified(shared.State(), me, Ineligible);
      trace := shared.Extend(s0, before, s1, world(tick).others, Step(me, LoadDraft));
      AlsoHere(s0, before, s1, world(tick).others, shared.State());
      if !HasRecord(shared.State(), q) {
        shared.callers := shared.callers[me := Idle];
        return Err(ErrorRaised), trace;
      }
      RecordIsOk(shared.State(), q);
      var record, etag := shared.docs.docs[RecordId(q)].body.record, shared.docs.docs[RecordId(q)].etag;
      r, trace := Advance(me, record, etag, PackageDrafted, record.(package := Some(package), hash := Some(PackageHash(package))),
                          Presenting(q), world, tick + 1, s0, trace);
      if r.Err? {
        return;
      }
      ghost var s2 := shared.State();
      shared.Await(me, world(tick + 2).others);
      NextIsMoved(shared.State(), me);
      AlsoHere(s0, trace, s2, world(tick + 2).others, shared.State());
      DraftStays(s0, trace, s2, shared.State(), q);
      trace := shared.Extend(s0, trace, s2, world(tick + 2).others, Step(me, LoadPresent));
      r, trace := Move(me, q, AwaitingOperations, Idle, world, tick + 3, s0, trace);
      if r.Ok? {
        StepsAlong(s0, trace);
        PresentedIsSealed(shared.State(), r.value);
        SealedByHash(r.value);
      }
    }

    // -------------------------------------------------------------- the two decisions

    /** `operations_decide`: on the record as it is now; an approval goes on to the Manager by a commit of its own. */
    method OperationsDecide(me: nat, q: nat, actor: ObjectId, command: Command, now: int, id: nat,
                            world: World, tick: nat, ghost s0: System, ghost before: seq<Step>)
      returns (r: Result<Record, Failure>, ghost trace: seq<Step>)
      requires LeavesMeAlone(me, world) && Inv(s0)
      requires At(shared.State(), me) == OperationsDeciding(q, actor, command) && shared.State() == Run(Next, s0, before)
      modifies shared
      ensures shared.State() == Run(Next, s0, trace) && At(shared.State(), me) == Idle
      ensures r.Ok? ==> Holds(shared.State(), r.value) && r.value.request == q && Decides(r.value, actor, command, false)
      ensures r.Ok? ==> SamePerson(actor, shared.config.operations)
      ensures r.Ok? ==> if command.verdict.Approve? then r.value.state.AwaitingManager? else r.value.state.OperationsRejected?
      ensures r.Ok? ==> r.value.operations.value.id == id && r.value.operations.value.at == now
    {
      hide Next, Run, Inv, Moving, Grown;
      ghost var s1 := shared.State();
      shared.Await(me, world(tick).others);
      NextIsDecided(shared.State(), me, now, 0, id);
      trace := shared.Extend(s0, before, s1, world(tick).others, Step(me, LoadOperations(now, id)));
      AlsoHere(s0, before, s1, world(tick).others, shared.State());
      if !HasRecord(shared.State(), q) {
        shared.callers := shared.callers[me := Idle];
        return Err(ErrorRaised), trace;
      }
      RecordIsOk(shared.State(), q);
      var record, etag := shared.docs.docs[RecordId(q)].body.record, shared.docs.docs[RecordId(q)].etag;
      if !SamePerson(actor, shared.config.operations) || !record.state.AwaitingOperations? || record.package.None? || record.hash.None?
         || !Reasoned(command.verdict, command.reason) {
        shared.callers := shared.callers[me := Idle];
        return Err(NotAuthorized), trace;
      }
      var recorded := OperationsDecision(id, q, record.package.value.version, record.hash.value, actor, command.verdict,
                                         command.note, command.reason, now);
      shared.built := shared.built + [Built(q, id, command.hash, recorded.hash)];
      var target := if command.verdict.Approve? then OperationsApproved else OperationsRejected;
      var done := if command.verdict.Approve? then Escalating(q) else Idle;
      r, trace := Advance(me, record, etag, target, record.(operations := Some(recorded)), done, world, tick + 1, s0, trace);
      if r.Err? || command.verdict.Reject? {
        return;
      }
      ghost var s2 := shared.State();
      shared.Await(me, world(tick + 2).others);
      NextIsMoved(shared.State(), me);
      AlsoHere(s0, trace, s2, world(tick + 2).others, shared.State());
      DecisionStays(s2, shared.State(), q);
      trace := shared.Extend(s0, trace, s2, world(tick + 2).others, Step(me, LoadEscalate));
      r, trace := Move(me, q, AwaitingManager, Idle, world, tick + 3, s0, trace);
    }

    /** `manager_decide`: by another person than decided for Operations. */
    method ManagerDecide(me: nat, q: nat, actor: ObjectId, command: Command, now: int, year: int, id: nat,
                         world: World, tick: nat, ghost s0: System, ghost before: seq<Step>)
      returns (r: Result<Record, Failure>, ghost trace: seq<Step>)
      requires LeavesMeAlone(me, world) && Inv(s0)
      requires At(shared.State(), me) == ManagerDeciding(q, actor, command) && shared.State() == Run(Next, s0, before)
      modifies shared
      ensures shared.State() == Run(Next, s0, trace) && At(shared.State(), me) == Idle
      ensures r.Ok? ==> Holds(shared.State(), r.value) && r.value.request == q && Decides(r.value, actor, command, true)
      ensures r.Ok? ==> SamePerson(actor, shared.config.manager) && r.value.operations.Some? && !SamePerson(actor, r.value.operations.value.actor)
      ensures r.Ok? ==> if command.verdict.Approve? then r.value.state.ManagerApproved? else r.value.state.ManagerRejected?
      ensures r.Ok? ==> r.value.manager.value.id == id && r.value.manager.value.at == now && r.value.manager.value.year == year
    {
      hide Next, Run, Inv, Moving, Grown;
      ghost var s1 := shared.State();
      shared.Await(me, world(tick).others);
      NextIsDecided(shared.State(), me, now, year, id);
      trace := shared.Extend(s0, before, s1, world(tick).others, Step(me, LoadManager(now, year, id)));
      AlsoHere(s0, before, s1, world(tick).others, shared.State());
      if !HasRecord(shared.State(), q) {
        shared.callers := shared.callers[me := Idle];
        return Err(ErrorRaised), trace;
      }
      RecordIsOk(shared.State(), q);
      var record, etag := shared.docs.docs[RecordId(q)].body.record, shared.docs.docs[RecordId(q)].etag;
      if !SamePerson(actor, shared.config.manager) || !record.state.AwaitingManager?
         || record.package.None? || record.hash.None? || record.operations.None? {
        shared.callers := shared.callers[me := Idle];
        return Err(NotAuthorized), trace;
      }
      var operations := record.operations.value;
      if SamePerson(actor, operations.actor) || !Reasoned(command.verdict, command.reason) {
        shared.callers := shared.callers[me := Idle];
        return Err(NotAuthorized), trace;
      }
      var recorded := ManagerDecision(id, q, record.package.value.version, record.hash.value, actor, command.verdict,
                                      operations.id, operations.note, command.reason, now, year);
      shared.built := shared.built + [Built(q, id, command.hash, recorded.hash)];
      var target := if command.verdict.Approve? then ManagerApproved else ManagerRejected;
      r, trace := Advance(me, record, etag, target, record.(manager := Some(recorded)), Idle, world, tick + 1, s0, trace);
    }
  }

  /** A package of this record's own, and its hash. */
  predicate Sealed(r: Record) {
    && r.package.Some? && r.hash == Some(PackageHash(r.package.value))
    && r.package.value == Package(r.request, 1, r.customer, r.equipment, 12, r.package.value.content)
  }

  lemma SealedByHash(r: Record)
    requires Sealed(r)
    ensures r.package.Some? && r.hash == Some(PackageHash(r.package.value))
  {
  }

  /** What was drafted is still there when it is presented, unless investigations are driven otherwise. */
  lemma DraftStays(s0: System, before: seq<Step>, s: System, t: System, q: nat)
    requires Inv(s0) && s == Run(Next, s0, before) && Grown(s, t) && HasRecord(s, q) && Rec(s, q).hash.Some?
    ensures !s.config.redriven ==> HasRecord(t, q) && Rec(t, q).hash == Rec(s, q).hash
  {
    hide Inv, Next, Run, Grown;
    StepsAlong(s0, before);
    RecordIsOk(s, q);
    if !s.config.redriven {
      PackageStays(s, t, q);
    }
  }

  lemma PresentedIsSealed(s: System, r: Record)
    requires Inv(s) && Holds(s, r) && Presented(r.state)
    ensures Sealed(r)
  {
    hide Inv;
    RecordIsOk(s, r.request);
  }

  lemma AlsoHere(s0: System, before: seq<Step>, s1: System, others: seq<Step>, s2: System)
    requires Inv(s0) && s1 == Run(Next, s0, before) && s2 == Run(Next, s1, others)
    ensures Inv(s2) && Grown(s0, s1) && Grown(s1, s2)
  {
    hide Inv, Next, Run, Grown;
    StepsAlong(s0, before);
    StepsAlong(s1, others);
  }

  lemma DecisionStays(s: System, t: System, q: nat)
    requires Grown(s, t) && HasRecord(s, q) && Rec(s, q).operations.Some?
    ensures HasRecord(t, q) && Rec(t, q).operations == Rec(s, q).operations
  {
  }

  // ---------------------------------------------------------------- the review

  /** What a reviewer's call is worth: the recorded decision is the one that was sent, on the
      package that was displayed, unless investigations are driven otherwise. */
  ghost predicate Reviewed(config: Config, s: System, r: Record, q: nat, actor: ObjectId, command: Command, byManager: bool) {
    && Holds(s, r) && r.request == q && Decides(r, actor, command, byManager)
    && (if byManager then SamePerson(actor, config.manager) else SamePerson(actor, config.operations))
    && (!config.redriven ==> r.hash == Some(command.hash))
    && (!config.redriven ==> if byManager then r.manager.value.hash == command.hash else r.operations.value.hash == command.hash)
  }

  class CoverageReview {
    const controller: Controller

    constructor (controller: Controller)
      ensures this.controller == controller
    {
      this.controller := controller;
    }

    /** `operations` and `manager`: a decision that is already recorded is acknowledged without a
        step; any other must restate the stored package. */
    method Decide(me: nat, q: nat, actor: ObjectId, command: Command, byManager: bool, now: int, year: int, id: nat, world: World)
      returns (r: Result<Record, Failure>, ghost trace: seq<Step>)
      requires LeavesMeAlone(me, world) && Inv(controller.shared.State()) && At(controller.shared.State(), me) == Idle
      modifies controller.shared
      ensures var s := controller.shared.State();
        s == Run(Next, old(controller.shared.State()), trace) && Inv(s) && At(s, me) == Idle
      ensures var s, t := old(controller.shared.State()), controller.shared.State();
        HasRecord(s, q) && Recorded(Rec(s, q), actor, command, byManager) ==> t == s && r == Ok(Rec(s, q))
      ensures var s, t := old(controller.shared.State()), controller.shared.State();
        r.Ok? && (HasRecord(s, q) ==> !Recorded(Rec(s, q), actor, command, byManager)) ==>
          && HasRecord(s, q) && Restates(Rec(s, q), command) && Reviewed(s.config, t, r.value, q, actor, command, byManager)
          && Rec(s, q).package.Some? && Rec(s, q).package.value.version == command.version && Rec(s, q).hash == Some(command.hash)
      ensures var s, t := old(controller.shared.State()), controller.shared.State();
        r.Ok? ==> HasRecord(t, q) && r.value == Rec(t, q) && History.DecisionOf(t, q, byManager).Some?
      ensures var s := old(controller.shared.State());
        r.Ok? && HasRecord(s, q) && History.DecisionOf(s, q, byManager).None? ==> BuiltNow(r.value, byManager, id, now, year)
      ensures var s, t := old(controller.shared.State()), controller.shared.State();
        r.Ok? ==> var d := History.DecisionOf(t, q, byManager).value;
          && d.0.folded == actor.folded && d.1 == command.verdict
          && (d.2 == command.hash || (s.config.redriven && HasRecord(s, q) && History.DecisionOf(s, q, byManager).None?))
      ensures var s := old(controller.shared.State());
        HasRecord(s, q) && History.DecisionOf(s, q, byManager).Some? ==>
          var d := History.DecisionOf(s, q, byManager).value;
          d.0.folded != actor.folded || d.1 != command.verdict || d.2 != command.hash ==> r.Err?
    {
      hide Next, Run, Inv, Grown, Recorded, Decides;
      ghost var s0 := controller.shared.State();
      NoSteps(s0);
      if !HasRecord(controller.shared.State(), q) {
        return Err(ErrorRaised), [];
      }
      var record := controller.shared.docs.docs[RecordId(q)].body.record;
      History.NotTheSame(s0, q, actor, command, byManager);
      RecordIsOk(s0, q);
      if Recorded(record, actor, command, byManager) {
        return Ok(record), [];
      }
      if !Restates(record, command) {
        return Err(NotAuthorized), [];
      }
      NextIsReviewed(s0, me, q, actor, command, byManager);
      trace := controller.shared.Extend(s0, [], s0, [], Step(me, Review(q, actor, command, byManager)));
      if byManager {
        controller.shared.callers := controller.shared.callers[me := ManagerDeciding(q, actor, command)];
        r, trace := controller.ManagerDecide(me, q, actor, command, now, year, id, world, 0, s0, trace);
      } else {
        controller.shared.callers := controller.shared.callers[me := OperationsDeciding(q, actor, command)];
        r, trace := controller.OperationsDecide(me, q, actor, command, now, id, world, 0, s0, trace);
      }
      StepsAlong(s0, trace);
      if r.Ok? {
        RecordIsOk(controller.shared.State(), q);
        if !s0.config.redriven {
          PackageStays(s0, controller.shared.State(), q);
        }
        DecisionBound(controller.shared.State(), r.value, actor, command, byManager);
        DecidedOnce(s0, controller.shared.State(), r.value, q, actor, command, byManager);
      }
    }
  }

  /** A decision that was stored before is the one that is stored now. */
  lemma DecidedOnce(s: System, t: System, r: Record, q: nat, actor: ObjectId, command: Command, byManager: bool)
    requires Grown(s, t) && HasRecord(s, q) && Restates(Rec(s, q), command) && RecordOk(s.config, Rec(s, q))
    requires Holds(t, r) && r.request == q && Decides(r, actor, command, byManager) && RecordOk(s.config, r)
    ensures History.DecisionOf(t, q, byManager).Some?
    ensures var d := History.DecisionOf(t, q, byManager).value; d.0.folded == actor.folded && d.1 == command.verdict && r.hash == Some(d.2)
    ensures History.DecisionOf(s, q, byManager).Some? ==>
      History.DecisionOf(s, q, byManager) == History.DecisionOf(t, q, byManager) && History.DecisionOf(t, q, byManager).value.2 == command.hash
  {
  }

  lemma DecisionBound(s: System, r: Record, actor: ObjectId, command: Command, byManager: bool)
    requires RecordOk(s.config, r) && Decides(r, actor, command, byManager)
    ensures byManager ==> r.manager.Some? && r.hash == Some(r.manager.value.hash)
    ensures !byManager ==> r.operations.Some? && r.hash == Some(r.operations.value.hash)
  {
  }

  // ---------------------------------------------------------------- the customer

  lemma CreatedOnce(s: System, r: Record)
    ensures HasRecord(s, r.request) ==> !Admits(s.docs, CreateWrites(r))
  {
    assert RecordId(r.request) in CreateWrites(r);
  }

  lemma CreatedIsThere(s: System, r: Record)
    requires Admits(s.docs, CreateWrites(r))
    ensures var docs := Batch(s.docs, CreateWrites(r)).docs; RecordId(r.request) in docs && docs[RecordId(r.request)].body == RecordDoc(r)
  {
    BatchContents(s.docs, CreateWrites(r));
    assert RecordId(r.request) in CreateWrites(r);
  }

  lemma SameCustomer(s: System, t: System, q: nat)
    requires Grown(s, t) && HasRecord(s, q)
    ensures HasRecord(t, q) && Rec(t, q).customer == Rec(s, q).customer && Rec(t, q).equipment == Rec(s, q).equipment
  {
  }

  lemma NextIsDownload(s: System, me: nat, q: nat, customer: nat, kind: Kind)
    requires At(s, me).Idle?
    ensures Next(s, Step(me, Act.Download(q, customer, kind))) == NextDownload(s, me, q, customer, kind)
  {
    hide NextDownload;
  }

  lemma IssuedToCustomer(s: System, t: System, q: nat, kind: Kind)
    requires HasRecord(s, q) && Grown(s, t) && Inv(t) && HasReceipt(t, q)
    ensures var bytes := DigestOf(ReceiptOf(t, q), kind).bytes;
      bytes.kind == kind && bytes.package.request == q && bytes.package.customer == Rec(s, q).customer
  {
    hide Inv;
    History.ReceiptIsTheirs(t, q);
  }

  class CoverageCustomerRuntime {
    const controller: Controller

    constructor (controller: Controller)
      ensures this.controller == controller
    {
      this.controller := controller;
    }

    /** `start`: only the call that created the request drives it, once, from the investigation to
        a presented package or a hold. */
    method Start(me: nat, q: nat, customer: nat, equipment: nat, created: bool, agentOk: bool, finding: Finding, world: World)
      returns (r: Result<Record, Failure>, ghost trace: seq<Step>)
      requires LeavesMeAlone(me, world) && Inv(controller.shared.State()) && At(controller.shared.State(), me) == Idle
      modifies controller.shared
      ensures var s := controller.shared.State();
        s == Run(Next, old(controller.shared.State()), trace) && Inv(s) && At(s, me) == Idle
      ensures old(HasRecord(controller.shared.State(), q)) ==> controller.shared.State() == old(controller.shared.State())
      ensures r.Ok? && old(HasRecord(controller.shared.State(), q)) ==> r.value == old(Rec(controller.shared.State(), q))
      ensures r.Ok? ==> r.value.request == q && r.value.customer == customer && Holds(controller.shared.State(), r.value)
      ensures r.Ok? && !old(HasRecord(controller.shared.State(), q)) ==>
        if agentOk && finding.Eligible? then r.value.state.AwaitingOperations? && Sealed(r.value) else r.value.state.EvidenceHold?
      ensures r.Ok? && !old(HasRecord(controller.shared.State(), q)) ==> r.value.equipment == equipment
      ensures r.Ok? && !old(HasRecord(controller.shared.State(), q)) && agentOk && finding.Eligible? && !controller.shared.config.redriven ==>
        finding.content.Some? && r.value.package == Some(Package(q, 1, customer, equipment, 12, finding.content.value))
    {
      hide Next, Run, Inv, Grown, Batch, Admits;
      ghost var s0 := controller.shared.State();
      NoSteps(s0);
      NextIsStarted(s0, me, q, customer, equipment, created, true);
      trace := controller.shared.Extend(s0, [], s0, [], Step(me, Act.Start(q, customer, equipment, created)));
      StepsAlong(s0, trace);
      var record := Record(q, 0, CustomerRequested, customer, equipment, None, None, None, None);
      CreatedOnce(s0, record);
      if !Admits(controller.shared.docs, CreateWrites(record)) {
        r := Progress(q, customer);
        return;
      }
      controller.shared.docs := Batch(controller.shared.docs, CreateWrites(record));
      controller.shared.callers := controller.shared.callers[me := if created then Beginning(q, true) else Idle];
      if !created {
        return Err(ErrorRaised), trace;
      }
      ghost var s1, more := controller.shared.State(), [];
      NoSteps(s1);
      CreatedIsThere(s0, record);
      r, more := Drive(me, q, agentOk, finding, world, s1, []);
      RunAppend(Next, s0, trace, more);
      trace := trace + more;
      StepsAlong(s1, more);
      SameCustomer(s1, controller.shared.State(), q);
      if r.Ok? {
        r := Progress(q, customer);
      }
    }

    method Drive(me: nat, q: nat, agentOk: bool, finding: Finding, world: World, ghost s0: System, ghost before: seq<Step>)
      returns (r: Result<Record, Failure>, ghost trace: seq<Step>)
      requires LeavesMeAlone(me, world) && Inv(s0)
      requires At(controller.shared.State(), me) == Beginning(q, true) && controller.shared.State() == Run(Next, s0, before)
      modifies controller.shared
      ensures controller.shared.State() == Run(Next, s0, trace) && At(controller.shared.State(), me) == Idle
      ensures r.Ok? ==> Holds(controller.shared.State(), r.value) && r.value.request == q
      ensures r.Ok? ==> if agentOk && finding.Eligible? then r.value.state.AwaitingOperations? && Sealed(r.value) else r.value.state.EvidenceHold?
      ensures r.Ok? && agentOk && finding.Eligible? ==> finding.content.Some?
      ensures r.Ok? && agentOk && finding.Eligible? && !controller.shared.config.redriven ==>
        r.value.package.value.content == finding.content.value
    {
      hide Next, Run, Inv, Grown, Sealed;
      r, trace := controller.BeginInvestigation(me, q, true, world, 0, s0, before);
      if r.Err? {
        return;
      }
      ghost var s1 := controller.shared.State();
      controller.shared.Await(me, world(2).others);
      NextIsStarted(controller.shared.State(), me, q, 0, 0, true, agentOk);
      trace := controller.shared.Extend(s0, trace, s1, world(2).others, Step(me, AgentAnswers(agentOk)));
      if agentOk {
        controller.shared.callers := controller.shared.callers[me := Verifying(q)];
        r, trace := controller.VerifyEligibility(me, q, finding, world, 3, s0, trace);
      } else {
        controller.shared.callers := controller.shared.callers[me := Holding(q)];
        r, trace := controller.HoldInvestigation(me, q, world, 3, s0, trace);
      }
    }

    /** `progress`: another customer's request looks like an unknown one. */
    method Progress(q: nat, customer: nat) returns (r: Result<Record, Failure>)
      requires Inv(controller.shared.State())
      ensures r.Ok? <==> HasRecord(controller.shared.State(), q) && Rec(controller.shared.State(), q).customer == customer
      ensures r.Ok? ==> r.value == Rec(controller.shared.State(), q) && r.value.request == q
    {
      hide Inv;
      if !HasRecord(controller.shared.State(), q) {
        return Err(ErrorRaised);
      }
      RecordIsOk(controller.shared.State(), q);
      var record := controller.shared.docs.docs[RecordId(q)].body.record;
      return if record.customer == customer then Ok(record) else Err(ErrorRaised);
    }

    /** `download`: bytes go out exactly to the renewal's own customer, once it is completed, and are
        a document of that customer; to anyone else the renewal looks like an unknown one. */
    method Download(me: nat, q: nat, customer: nat, kind: Kind, world: World)
      returns (r: Result<Bytes, Failure>, ghost trace: seq<Step>)
      requires LeavesMeAlone(me, world) && Inv(controller.shared.State()) && At(controller.shared.State(), me) == Idle
      modifies controller.shared
      ensures var s := controller.shared.State();
        s == Run(Next, old(controller.shared.State()), trace) && Inv(s) && At(s, me) == Idle
      ensures var s := old(controller.shared.State());
        r.Ok? <==> HasRecord(s, q) && Rec(s, q).customer == customer && Rec(s, q).state.Completed? && world(2).ok
      ensures var s := old(controller.shared.State());
        !HasRecord(s, q) || Rec(s, q).customer != customer ==> controller.shared.State() == s
      ensures r.Ok? ==>
        && HasReceipt(controller.shared.State(), q) && Digest(r.value) == DigestOf(ReceiptOf(controller.shared.State(), q), kind)
        && r.value.kind == kind && r.value.package.request == q && r.value.package.customer == customer
    {
      hide Next, Run, Inv, Grown;
      ghost var s0 := controller.shared.State();
      NoSteps(s0);
      if !HasRecord(controller.shared.State(), q) {
        return Err(ErrorRaised), [];
      }
      var record := controller.shared.docs.docs[RecordId(q)].body.record;
      if record.customer != customer || !record.state.Completed? {
        return Err(ErrorRaised), [];
      }
      NextIsDownload(s0, me, q, customer, kind);
      trace := controller.shared.Extend(s0, [], s0, [], Step(me, Act.Download(q, customer, kind)));
      controller.shared.callers := controller.shared.callers[me := Admitted(q, customer, kind)];
      r, trace := controller.shared.Download(me, q, customer, kind, world, s0, trace);
      StepsAlong(s0, trace);
      if r.Ok? {
        IssuedToCustomer(s0, controller.shared.State(), q, kind);
      }
    }
  }
}
