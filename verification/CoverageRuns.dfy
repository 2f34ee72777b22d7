/** Runs of the renewal machine, built step by step: from nothing to an approved execution, and
    the parts of an execution. */
module CoverageRuns {
  import opened Results
  import opened CoverageRecords
  import opened CoverageRenewal
  import opened CoverageSafety
  import opened CoverageHistory
  import opened CoverageExecution
  import opened DocumentStore
  import opened Traces
  import Desk = CoverageController
  import Invoices = InvoiceAllocator

  lemma Then(s: System, t: System, steps: seq<Step>, step: Step)
    requires t == Run(Next, s, steps) && Inv(t)
    ensures Next(t, step) == Run(Next, s, steps + [step]) && Inv(Next(t, step)) && Grown(t, Next(t, step))
  {
    hide Inv, Next, Grown;
    RunOne(Next, t, step);
    RunAppend(Next, s, steps, [step]);
    NextKeeps(t, step);
  }

  // ---------------------------------------------------------------- one commit

  /** A commit on top of the record it was read from goes through, and its caller goes on. */
  lemma CommitNow(s: System, w: nat)
    requires Inv(s) && At(s, w).Committing? && HasRecord(s, At(s, w).updated.request)
    requires TagOf(s, At(s, w).updated.request) == At(s, w).etag
    ensures var t, p := Next(s, Step(w, Commit(true))), At(s, w);
      && HasRecord(t, p.updated.request) && Rec(t, p.updated.request) == p.updated && At(t, w) == p.done
      && Beside(s, t, w)
  {
    hide Inv, Next, Batch, RecordOk, Evolves, SnapOk, RecordBuilt, Consistent, LeadsTo, Admits;
    CallerOk(s, w);
    CommitIs(s, w);
    var p := At(s, w);
    CommitFacts(s, w, p);
    var writes := CommitWrites(p.updated, p.etag);
    BatchContents(s.docs, writes);
  }

  /** Only a record and its event were written, and only this caller moved. */
  ghost predicate Beside(s: System, t: System, w: nat) {
    && t.config == s.config && t.book == s.book && t.claims == s.claims && t.blobs == s.blobs && t.built == s.built
    && (forall q: nat :: HasReceipt(t, q) <==> HasReceipt(s, q))
    && (forall q: nat :: HasReceipt(s, q) ==> ReceiptOf(t, q) == ReceiptOf(s, q))
    && (forall v: nat :: v != w ==> At(t, v) == At(s, v))
  }

  lemma CommitIs(s: System, w: nat)
    requires At(s, w).Committing?
    ensures Next(s, Step(w, Commit(true))) == NextCommit(s, w, At(s, w), true)
  {
    hide NextCommit;
  }

  lemma CommitFacts(s: System, w: nat, p: Position)
    requires Inv(s) && At(s, w) == p && p.Committing? && PositionOk(s, p) && HasRecord(s, p.updated.request)
    requires TagOf(s, p.updated.request) == p.etag
    ensures Consistent(p.updated) && Admits(s.docs, CommitWrites(p.updated, p.etag))
    ensures p.updated.request == p.prior.request
  {
    hide Receipts, DecisionsBuilt, Callers, Carriers, Finishers, Drivers, Numbers, RecordBuilt;
    NoEventYet(s, p.updated);
  }

  /** A read that leads to a commit, and the commit. */
  lemma LoadAndCommit(s: System, u: System, before: seq<Step>, w: nat, q: nat, load: Step, updated: Record, done: Position, built: seq<Built>)
    returns (t: System, steps: seq<Step>)
    requires u == Run(Next, s, before) && Inv(u) && load.caller == w && HasRecord(u, q) && updated.request == q
    requires Next(u, load) == Goto(u.(built := built), w, Committing(Rec(u, q), updated, TagOf(u, q), done))
    ensures t == Run(Next, s, steps) && steps == before + [load, Step(w, Commit(true))]
    ensures Inv(t) && HasRecord(t, q) && Rec(t, q) == updated && At(t, w) == done && Beside(u.(built := built), t, w) && Grown(u, t)
  {
    hide Inv, Run, Next, Grown;
    Then(s, u, before, load);
    var v := Next(u, load);
    CommitNow(v, w);
    Then(s, v, before + [load], Step(w, Commit(true)));
    steps, t := before + [load] + [Step(w, Commit(true))], Next(v, Step(w, Commit(true)));
    GrownComposes(u, v, t);
    assert steps == before + [load, Step(w, Commit(true))];
  }

  /** The same for a read that only moves the state. */
  lemma MoveNow(s: System, u: System, before: seq<Step>, w: nat, q: nat, load: Step, target: RenewalState, done: Position)
    returns (t: System, steps: seq<Step>)
    requires u == Run(Next, s, before) && Inv(u) && load.caller == w
    requires HasRecord(u, q) && Rec(u, q).request == q && CanTransition(Rec(u, q).state, target) && Next(u, load) == Moving(u, w, q, target, done)
    ensures t == Run(Next, s, steps) && steps == before + [load, Step(w, Commit(true))]
    ensures Inv(t) && At(t, w) == done && Beside(u, t, w)
    ensures HasRecord(t, q) && Rec(t, q) == Rec(u, q).(state := target, revision := Rec(u, q).revision + 1)
  {
    hide Inv, Run, Next, CanTransition, Grown;
    t, steps := LoadAndCommit(s, u, before, w, q, load, Rec(u, q).(state := target, revision := Rec(u, q).revision + 1), done, u.built);
  }

  // ---------------------------------------------------------------- to a drafted package

  /** Nothing has been executed yet, and no one else is under way. */
  ghost predicate Untouched(s: System, w: nat) {
    && s.book == Invoices.NEW_LEDGER && s.claims == map[] && s.blobs == map[]
    && (forall q: nat :: !HasReceipt(s, q)) && (forall v: nat :: v != w ==> At(s, v) == Idle)
  }

  lemma StaysUntouched(s: System, t: System, w: nat)
    requires Untouched(s, w) && Beside(s.(built := t.built), t, w)
    ensures Untouched(t, w)
  {
    var u := s.(built := t.built);
    forall q: nat ensures !HasReceipt(t, q) {
      assert !HasReceipt(s, q) && (HasReceipt(t, q) <==> HasReceipt(u, q));
    }
    forall v: nat | v != w ensures At(t, v) == Idle {
      assert At(s, v) == Idle && At(t, v) == At(u, v);
    }
  }

  lemma Created(config: Config, w: nat, q: nat, customer: nat, equipment: nat)
    ensures var t := Next(Initial(config), Step(w, Act.Start(q, customer, equipment, true)));
      && At(t, w) == Beginning(q, true) && HasRecord(t, q) && t.config == config && t.built == []
      && Rec(t, q) == Record(q, 0, CustomerRequested, customer, equipment, None, None, None, None) && Untouched(t, w)
  {
    var s, r := Initial(config), Record(q, 0, CustomerRequested, customer, equipment, None, None, None, None);
    BatchContents(s.docs, CreateWrites(r));
    assert RecordId(q) in CreateWrites(r);
    assert forall p: nat :: ReceiptId(p) !in CreateWrites(r);
  }

  function PackageFor(q: nat, customer: nat, equipment: nat, content: nat): Package {
    Package(q, 1, customer, equipment, COVERAGE_MONTHS, content)
  }

  function Drafted(q: nat, customer: nat, equipment: nat, content: nat): Record {
    var p := PackageFor(q, customer, equipment, content);
    Record(q, 3, PackageDrafted, customer, equipment, Some(p), Some(PackageHash(p)), None, None)
  }

  /** `start` up to the drafted package. */
  lemma ReachDrafted(config: Config, w: nat, q: nat, customer: nat, equipment: nat, content: nat) returns (t: System, steps: seq<Step>)
    ensures t == After(config, steps) && Inv(t) && t.config == config && t.built == [] && Untouched(t, w)
    ensures At(t, w) == Presenting(q) && HasRecord(t, q) && Rec(t, q) == Drafted(q, customer, equipment, content)
  {
    hide Inv, Run, Next, Moving, Untouched, Beside, Grown;
    var s := Initial(config);
    InitialOk(config);
    NoSteps(s);
    Created(config, w, q, customer, equipment);
    Then(s, s, [], Step(w, Act.Start(q, customer, equipment, true)));
    steps, t := [] + [Step(w, Act.Start(q, customer, equipment, true))], Next(s, Step(w, Act.Start(q, customer, equipment, true)));
    Desk.NextIsMoved(t, w);
    var u := t;
    t, steps := MoveNow(s, u, steps, w, q, Step(w, LoadBegin), EvidenceAssembling, Investigating(q));
    BesideFacts(u, t, w);
    StaysUntouched(u, t, w);
    t, steps := Investigated(s, t, steps, w, q, content);
  }

  lemma BesideFacts(s: System, t: System, w: nat)
    requires Beside(s, t, w)
    ensures t.config == s.config && t.built == s.built
  {
  }

  lemma Investigated(s: System, u: System, before: seq<Step>, w: nat, q: nat, content: nat) returns (t: System, steps: seq<Step>)
    requires u == Run(Next, s, before) && Inv(u) && u.built == [] && Untouched(u, w) && At(u, w) == Investigating(q)
    requires HasRecord(u, q) && Rec(u, q) == Record(q, 1, EvidenceAssembling, Rec(u, q).customer, Rec(u, q).equipment, None, None, None, None)
    ensures t == Run(Next, s, steps) && Inv(t) && t.config == u.config && t.built == [] && Untouched(t, w)
    ensures At(t, w) == Presenting(q) && HasRecord(t, q) && Rec(t, q) == Drafted(q, Rec(u, q).customer, Rec(u, q).equipment, content)
  {
    hide Inv, Run, Next, Moving, Untouched, Beside, Grown;
    var package := PackageFor(q, Rec(u, q).customer, Rec(u, q).equipment, content);
    Desk.NextIsStarted(u, w, 0, 0, 0, true, true);
    Then(s, u, before, Step(w, AgentAnswers(true)));
    var v := Goto(u, w, Verifying(q));
    MovedUntouched(u, w, Verifying(q));
    Desk.NextIsVerified(v, w, Eligible(Some(content)));
    t, steps := MoveNow(s, v, before + [Step(w, AgentAnswers(true))], w, q, Step(w, LoadVerify(Eligible(Some(content)))), EligibilityVerified, Drafting(q, package));
    BesideFacts(v, t, w);
    StaysUntouched(v, t, w);
    v := t;
    Desk.NextIsVerified(v, w, Ineligible);
    t, steps := LoadAndCommit(s, v, steps, w, q, Step(w, LoadDraft), Drafted(q, Rec(u, q).customer, Rec(u, q).equipment, content), Presenting(q), v.built);
    assert v.(built := v.built) == v;
    BesideFacts(v, t, w);
    StaysUntouched(v, t, w);
  }

  lemma MovedUntouched(s: System, w: nat, p: Position)
    requires Untouched(s, w)
    ensures Untouched(Goto(s, w, p), w)
  {
    forall q: nat ensures !HasReceipt(Goto(s, w, p), q) {
      assert !HasReceipt(s, q);
    }
    forall v: nat | v != w ensures At(Goto(s, w, p), v) == Idle {
      assert At(s, v) == Idle;
    }
  }

  // ---------------------------------------------------------------- to an approved execution

  /** The command of a reviewer who approves the stored package. */
  function Approving(r: Record): Command
    requires r.package.Some? && r.hash.Some?
  {
    Command(Approve, r.package.value.version, r.hash.value, None, None)
  }

  function ApprovedByOperations(r: Record, actor: ObjectId, command: Command, id: nat, now: int): Record
    requires r.package.Some? && r.hash.Some?
  {
    r.(operations := Some(OperationsDecision(id, r.request, r.package.value.version, r.hash.value, actor, command.verdict, command.note, command.reason, now)),
       state := OperationsApproved, revision := r.revision + 1)
  }

  /** A reviewer who restates the stored package is about to decide. */
  lemma ReviewOpens(s: System, w: nat, q: nat, actor: ObjectId, command: Command, byManager: bool)
    requires At(s, w).Idle? && HasRecord(s, q) && Restates(Rec(s, q), command)
    requires if byManager then Rec(s, q).manager.None? else Rec(s, q).operations.None?
    ensures Next(s, Step(w, Review(q, actor, command, byManager)))
         == Goto(s, w, if byManager then ManagerDeciding(q, actor, command) else OperationsDeciding(q, actor, command))
  {
    Desk.NextIsReviewed(s, w, q, actor, command, byManager);
  }

  lemma OperationsBuilds(s: System, w: nat, q: nat, command: Command, now: int, id: nat)
    requires At(s, w) == OperationsDeciding(q, s.config.operations, command) && HasRecord(s, q)
    requires Rec(s, q).request == q && Rec(s, q).state.AwaitingOperations? && Rec(s, q).package.Some? && Rec(s, q).hash.Some?
    requires command.verdict.Approve? && command.reason.None?
    ensures Next(s, Step(w, LoadOperations(now, id)))
         == Goto(s.(built := s.built + [Built(q, id, command.hash, Rec(s, q).hash.value)]), w,
                 Committing(Rec(s, q), ApprovedByOperations(Rec(s, q), s.config.operations, command, id, now), TagOf(s, q), Escalating(q)))
  {
    Desk.NextIsDecided(s, w, now, 0, id);
  }

  /** The Operations approval, from the read to its commit. */
  lemma OperationsApproves(s: System, u: System, before: seq<Step>, w: nat, q: nat, command: Command, now: int, id: nat)
    returns (t: System, steps: seq<Step>)
    requires u == Run(Next, s, before) && Inv(u) && At(u, w) == OperationsDeciding(q, u.config.operations, command)
    requires HasRecord(u, q) && Rec(u, q).state.AwaitingOperations? && Rec(u, q).package.Some? && Rec(u, q).hash.Some?
    requires command.verdict.Approve? && command.reason.None?
    ensures t == Run(Next, s, steps) && Inv(t) && At(t, w) == Escalating(q) && HasRecord(t, q)
    ensures Rec(t, q) == ApprovedByOperations(Rec(u, q), u.config.operations, command, id, now)
    ensures t.built == u.built + [Built(q, id, command.hash, Rec(u, q).hash.value)] && Beside(u.(built := t.built), t, w)
  {
    hide Inv, Run, Next, Beside, Grown;
    RecordFacts(u, q);
    OperationsBuilds(u, w, q, command, now, id);
    var built := u.built + [Built(q, id, command.hash, Rec(u, q).hash.value)];
    t, steps := LoadAndCommit(s, u, before, w, q, Step(w, LoadOperations(now, id)),
                              ApprovedByOperations(Rec(u, q), u.config.operations, command, id, now), Escalating(q), built);
    BesideFacts(u.(built := built), t, w);
  }

  /** A renewal that waits for Operations is approved by both, and authorized. */
  lemma Approved(s: System, u: System, before: seq<Step>, w: nat, q: nat, year: int) returns (t: System, steps: seq<Step>)
    requires u == Run(Next, s, before) && Inv(u) && Untouched(u, w) && At(u, w).Idle? && !SamePerson(u.config.operations, u.config.manager)
    requires HasRecord(u, q) && Rec(u, q).state.AwaitingOperations?
    ensures t == Run(Next, s, steps) && Inv(t) && t.config == u.config && Untouched(t, w) && At(t, w) == Launching(q)
    ensures HasRecord(t, q) && Rec(t, q).state.Executing? && Rec(t, q).manager.Some? && Rec(t, q).manager.value.year == year
  {
    hide Inv, Run, Next, Moving, Untouched, Beside, Grown;
    AwaitingFacts(u, q);
    var command := Approving(Rec(u, q));
    ReviewOpens(u, w, q, u.config.operations, command, false);
    Then(s, u, before, Step(w, Review(q, u.config.operations, command, false)));
    steps := before + [Step(w, Review(q, u.config.operations, command, false))];
    var v := Goto(u, w, OperationsDeciding(q, u.config.operations, command));
    MovedUntouched(u, w, OperationsDeciding(q, u.config.operations, command));
    t, steps := OperationsApproves(s, v, steps, w, q, command, 0, 0);
    StaysUntouched(v, t, w);
    BesideFacts(v.(built := t.built), t, w);
    v := t;
    Desk.NextIsMoved(v, w);
    t, steps := MoveNow(s, v, steps, w, q, Step(w, LoadEscalate), AwaitingManager, Idle);
    BesideFacts(v, t, w);
    StaysUntouched(v, t, w);
    t, steps := ManagerApproves(s, t, steps, w, q, year);
    t, steps := Launches(s, t, steps, w, q);
  }

  lemma AwaitingFacts(s: System, q: nat)
    requires Inv(s) && HasRecord(s, q) && Rec(s, q).state.AwaitingOperations?
    ensures Rec(s, q).request == q && Rec(s, q).package.Some? && Rec(s, q).hash.Some? && Rec(s, q).operations.None?
  {
    hide Inv;
    RecordFacts(s, q);
  }

  lemma ManagerFacts(s: System, q: nat)
    requires Inv(s) && HasRecord(s, q) && Rec(s, q).state.AwaitingManager?
    ensures var r := Rec(s, q);
      r.request == q && r.package.Some? && r.hash.Some? && r.operations.Some? && r.manager.None? && SamePerson(r.operations.value.actor, s.config.operations)
  {
    hide Inv;
    RecordFacts(s, q);
  }

  function ApprovedByManager(r: Record, actor: ObjectId, year: int): Record
    requires r.package.Some? && r.hash.Some? && r.operations.Some?
  {
    r.(manager := Some(ManagerDecision(0, r.request, r.package.value.version, r.hash.value, actor, Approve,
                                       r.operations.value.id, r.operations.value.note, None, r.operations.value.at, year)),
       state := ManagerApproved, revision := r.revision + 1)
  }

  lemma ManagerBuilds(s: System, w: nat, q: nat, command: Command, year: int)
    requires At(s, w) == ManagerDeciding(q, s.config.manager, command) && HasRecord(s, q)
    requires Rec(s, q).request == q && Rec(s, q).state.AwaitingManager? && Rec(s, q).package.Some? && Rec(s, q).hash.Some? && Rec(s, q).operations.Some?
    requires SamePerson(Rec(s, q).operations.value.actor, s.config.operations) && !SamePerson(s.config.operations, s.config.manager)
    requires command.verdict.Approve? && command.reason.None?
    ensures Next(s, Step(w, LoadManager(Rec(s, q).operations.value.at, year, 0)))
         == Goto(s.(built := s.built + [Built(q, 0, command.hash, Rec(s, q).hash.value)]), w,
                 Committing(Rec(s, q), ApprovedByManager(Rec(s, q), s.config.manager, year), TagOf(s, q), Idle))
  {
    Desk.NextIsDecided(s, w, Rec(s, q).operations.value.at, year, 0);
  }

  lemma ManagerApproves(s: System, u: System, before: seq<Step>, w: nat, q: nat, year: int) returns (t: System, steps: seq<Step>)
    requires u == Run(Next, s, before) && Inv(u) && Untouched(u, w) && At(u, w).Idle? && !SamePerson(u.config.operations, u.config.manager)
    requires HasRecord(u, q) && Rec(u, q).state.AwaitingManager?
    ensures t == Run(Next, s, steps) && Inv(t) && t.config == u.config && Untouched(t, w) && At(t, w).Idle?
    ensures HasRecord(t, q) && Rec(t, q).state.ManagerApproved? && Rec(t, q).manager.Some? && Rec(t, q).manager.value.year == year
    ensures Rec(t, q).operations.Some? && Rec(t, q).manager.value.at == Rec(t, q).operations.value.at
  {
    hide Inv, Run, Next, Untouched, Beside, Grown;
    ManagerFacts(u, q);
    var r := Rec(u, q);
    var command := Approving(r);
    ReviewOpens(u, w, q, u.config.manager, command, true);
    Then(s, u, before, Step(w, Review(q, u.config.manager, command, true)));
    steps := before + [Step(w, Review(q, u.config.manager, command, true))];
    var v := Goto(u, w, ManagerDeciding(q, u.config.manager, command));
    MovedUntouched(u, w, ManagerDeciding(q, u.config.manager, command));
    ManagerBuilds(v, w, q, command, year);
    t, steps := LoadAndCommit(s, v, steps, w, q, Step(w, LoadManager(r.operations.value.at, year, 0)), ApprovedByManager(r, u.config.manager, year), Idle,
                              v.built + [Built(q, 0, command.hash, r.hash.value)]);
    BesideFacts(v.(built := v.built + [Built(q, 0, command.hash, r.hash.value)]), t, w);
    StaysUntouched(v, t, w);
  }

  lemma ApprovedIsAuthorized(s: System, q: nat)
    requires Inv(s) && HasRecord(s, q) && Rec(s, q).state.ManagerApproved? && Rec(s, q).manager.Some?
    requires Rec(s, q).manager.value.at >= Rec(s, q).operations.value.at
    ensures Authorized(Rec(s, q)) && Rec(s, q).request == q
  {
    hide Inv;
    RecordFacts(s, q);
  }

  lemma Launches(s: System, u: System, before: seq<Step>, w: nat, q: nat) returns (t: System, steps: seq<Step>)
    requires u == Run(Next, s, before) && Inv(u) && Untouched(u, w) && At(u, w).Idle?
    requires HasRecord(u, q) && Rec(u, q).state.ManagerApproved? && Rec(u, q).manager.Some?
    requires Rec(u, q).operations.Some? && Rec(u, q).manager.value.at >= Rec(u, q).operations.value.at
    ensures t == Run(Next, s, steps) && Inv(t) && t.config == u.config && Untouched(t, w) && At(t, w) == Launching(q)
    ensures HasRecord(t, q) && Rec(t, q).state.Executing? && Rec(t, q).manager == Rec(u, q).manager
  {
    hide Inv, Run, Next, Untouched, Beside, Authorized, Grown;
    ApprovedIsAuthorized(u, q);
    NextIsCalled(u, w, q, true);
    Then(s, u, before, Step(w, Authorize(q, true)));
    steps := before + [Step(w, Authorize(q, true))];
    var v := Goto(u, w, Authorizing(q, true));
    MovedUntouched(u, w, Authorizing(q, true));
    NextIsAuthorized(v, w, q);
    t, steps := LoadAndCommit(s, v, steps, w, q, Step(w, LoadAuthorize), Rec(u, q).(state := Executing, revision := Rec(u, q).revision + 1), Launching(q), v.built);
    assert v.(built := v.built) == v;
    BesideFacts(v, t, w);
    StaysUntouched(v, t, w);
  }

  /** From nothing to an approved execution that is about to begin. */
  lemma ReachLaunching(config: Config, w: nat, q: nat, year: int) returns (t: System, steps: seq<Step>)
    requires !SamePerson(config.operations, config.manager)
    ensures t == After(config, steps) && Inv(t) && t.config == config && Untouched(t, w) && At(t, w) == Launching(q)
    ensures HasRecord(t, q) && Rec(t, q).state.Executing? && Rec(t, q).manager.Some? && Rec(t, q).manager.value.year == year
  {
    hide Inv, Run, Next, Moving, Untouched, Beside, Grown;
    var s := Initial(config);
    t, steps := ReachDrafted(config, w, q, 0, 0, 0);
    Desk.NextIsMoved(t, w);
    var v := t;
    t, steps := MoveNow(s, v, steps, w, q, Step(w, LoadPresent), AwaitingOperations, Idle);
    BesideFacts(v, t, w);
    StaysUntouched(v, t, w);
    t, steps := Approved(s, t, steps, w, q, year);
  }

  // ---------------------------------------------------------------- the parts of an execution

  /** Nobody but this caller moved, here or in the invoice book. */
  ghost predicate Alone(s: System, t: System, w: nat) {
    && t.config == s.config && t.built == s.built
    && (forall v: nat :: v != w ==> At(t, v) == At(s, v) && Invoices.At(t.book, v) == Invoices.At(s.book, v))
  }

  lemma LaunchedFacts(s: System, q: nat)
    requires Inv(s) && HasRecord(s, q) && Launched(Rec(s, q).state)
    ensures Authorized(Rec(s, q)) && Rec(s, q).request == q && Rec(s, q).manager.Some? && Rec(s, q).package.Some?
  {
    hide Inv, Authorized;
    RecordFacts(s, q);
    AuthorizedHas(Rec(s, q));
  }

  lemma ExecuteIs(s: System, w: nat, q: nat)
    requires At(s, w) == Launching(q) && HasRecord(s, q) && Rec(s, q).state.Executing? && Authorized(Rec(s, q))
    ensures Next(s, Step(w, LoadExecute)) == Goto(s, w, Checking(Rec(s, q)))
  {
    hide Authorized;
  }

  /** Past the gate, without a receipt: into the allocation. */
  lemma Enters(s: System, u: System, before: seq<Step>, w: nat, q: nat) returns (t: System, steps: seq<Step>)
    requires u == Run(Next, s, before) && Inv(u) && At(u, w) == Launching(q)
    requires HasRecord(u, q) && Rec(u, q).state.Executing? && !HasReceipt(u, q)
    ensures t == Run(Next, s, steps) && Inv(t) && Alone(u, t, w) && Rec(u, q).manager.Some?
    ensures At(t, w) == Allocating(Rec(u, q)) && Invoices.At(t.book, w) == Invoices.Reading(Rec(u, q).manager.value.year, Invoices.ATTEMPTS)
    ensures t.docs == u.docs && t.blobs == u.blobs && t.claims == u.claims && t.book.book == u.book.book && t.book.taken == u.book.taken
  {
    hide Inv, Run, Next, Authorized, Invoices.Next, Grown;
    LaunchedFacts(u, q);
    ExecuteIs(u, w, q);
    Then(s, u, before, Step(w, LoadExecute));
    var v := Goto(u, w, Checking(Rec(u, q)));
    BookIsIdle(v, w);
    CheckIs(v, w);
    Invoices.StartIs(v.book, w, Rec(u, q).manager.value.year);
    Then(s, v, before + [Step(w, LoadExecute)], Step(w, ReadReceipt));
    steps, t := before + [Step(w, LoadExecute)] + [Step(w, ReadReceipt)], Next(v, Step(w, ReadReceipt));
  }

  lemma BookIsIdle(s: System, w: nat)
    requires Inv(s) && !At(s, w).Allocating?
    ensures Invoices.At(s.book, w).Idle?
  {
    hide Invoices.Within;
    assert Matches(At(s, w), Invoices.At(s.book, w));
  }

  lemma CollectsIt(s: System, w: nat)
    requires At(s, w).Allocating? && Invoices.At(s.book, w).Done?
    ensures var t, n := Next(s, Step(w, Collect)), Invoices.At(s.book, w).invoice;
      && At(t, w) == Rendering(At(s, w).record, n) && t.docs == s.docs && t.blobs == s.blobs
      && t.claims == s.claims[n := At(s, w).record.request] && t.book.book == s.book.book && Alone(s, t, w)
  {
  }

  /** The next number of a year that is free, undisturbed. */
  lemma Takes(s: System, u: System, before: seq<Step>, w: nat, year: int, tries: nat) returns (t: System, steps: seq<Step>)
    requires u == Run(Next, s, before) && Inv(u) && At(u, w).Allocating?
    requires Invoices.At(u.book, w) == Invoices.Reading(year, tries) && Invoices.Free(u.book.book, year)
    ensures t == Run(Next, s, steps) && Inv(t) && Alone(u, t, w)
    ensures var n := Invoices.Invoice(year, Invoices.Counter(u.book.book, year) + 1);
      && At(t, w) == Rendering(At(u, w).record, n) && t.docs == u.docs && t.blobs == u.blobs
      && t.claims == u.claims[n := At(u, w).record.request] && n !in u.claims
      && Invoices.HasCounter(t.book.book, year) && Invoices.Counter(t.book.book, year) == n.sequence
      && forall m: Invoices.Invoice :: Invoices.Reserved(t.book.book, m) <==> Invoices.Reserved(u.book.book, m) || m == n
  {
    hide Inv, Run, Next, Invoices.Next, Invoices.Reserved, Invoices.Free, Grown;
    var b := Invoices.TakesFrom(u.book, w, year, tries);
    var v := u.(book := b);
    NextIsBooked(u, w, Invoices.Read);
    Then(s, u, before, Step(w, AllocateStep(Invoices.Read)));
    var x := Next(u, Step(w, AllocateStep(Invoices.Read)));
    NextIsBooked(x, w, Invoices.Take(true));
    Then(s, x, before + [Step(w, AllocateStep(Invoices.Read))], Step(w, AllocateStep(Invoices.Take(true))));
    steps := before + [Step(w, AllocateStep(Invoices.Read))] + [Step(w, AllocateStep(Invoices.Take(true)))];
    DoneIsNew(v, w);
    CollectsIt(v, w);
    Then(s, v, steps, Step(w, Collect));
    steps, t := steps + [Step(w, Collect)], Next(v, Step(w, Collect));
  }

  lemma DoneIsNew(s: System, w: nat)
    requires Inv(s) && Invoices.At(s.book, w).Done?
    ensures Invoices.At(s.book, w).invoice !in s.claims
  {
    NumberIsNew(s, w, Invoices.At(s.book, w).invoice);
  }

  // ---------------------------------------------------------------- documents and receipt

  function PayloadFor(r: Record, n: Invoices.Invoice): Payload
    requires r.package.Some? && r.manager.Some?
  {
    Payload(n, Digest(Bytes(Certificate, r.package.value, r.manager.value.at, n, 0)),
               Digest(Bytes(InvoicePdf, r.package.value, r.manager.value.at, n, 0)))
  }

  lemma RenderIs(s: System, w: nat)
    requires At(s, w).Rendering? && At(s, w).record.package.Some? && At(s, w).record.manager.Some?
    ensures var r, n := At(s, w).record, At(s, w).invoice;
      Next(s, Step(w, Render(Some(0), Some(0)))) == Goto(s, w, StoringCertificate(r.request, PayloadFor(r, n)))
    ensures Next(s, Step(w, Render(None, None))) == Goto(s, w, Failing(At(s, w).record.request))
  {
  }

  lemma WriteIs(s: System, w: nat)
    requires At(s, w).StoringCertificate? || At(s, w).StoringInvoice?
    ensures var p, t := At(s, w), Next(s, Step(w, WriteBlob(true, true)));
      && t == Goto(s.(blobs := t.blobs), w, if p.StoringCertificate? then StoringInvoice(p.q, p.payload) else Issuing(p.q, p.payload))
  {
    NextIsWritten(s, w, None, None, true, true);
  }

  lemma IssueIs(s: System, w: nat, acked: bool)
    requires At(s, w).Issuing? && ReceiptId(At(s, w).q) !in s.docs.docs
    ensures var p, t := At(s, w), Next(s, Step(w, Issue(acked)));
      && t == Goto(s.(docs := t.docs), w, if acked then Completing(p.q, p.payload) else Failing(p.q))
      && HasReceipt(t, p.q) && ReceiptOf(t, p.q) == p.payload
      && (forall k: DocId :: k != ReceiptId(p.q) && k in s.docs.docs ==> k in t.docs.docs && t.docs.docs[k] == s.docs.docs[k])
  {
    hide Batch, Admits;
    NextIsWritten(s, w, None, None, true, acked);
    var p := At(s, w);
    var writes := ReceiptWrites(p.q, p.payload);
    assert ReceiptId(p.q) in writes;
    assert Admits(s.docs, writes) by { NewDocument(s.docs, p.q, p.payload); }
    BatchContents(s.docs, writes);
  }

  lemma NewDocument(docs: Store, q: nat, payload: Payload)
    requires ReceiptId(q) !in docs.docs
    ensures Admits(docs, ReceiptWrites(q, payload))
  {
  }

  lemma NoReceiptDocument(s: System, q: nat)
    requires Inv(s) && !HasReceipt(s, q)
    ensures ReceiptId(q) !in s.docs.docs
  {
  }

  /** The documents and the receipt, whose acknowledgement may be lost. */
  lemma Issues(s: System, u: System, before: seq<Step>, w: nat, q: nat, acked: bool) returns (t: System, steps: seq<Step>)
    requires u == Run(Next, s, before) && Inv(u) && At(u, w).Rendering? && At(u, w).record.request == q
    requires HasRecord(u, q) && !HasReceipt(u, q)
    ensures t == Run(Next, s, steps) && Inv(t) && Alone(u, t, w) && t.book == u.book && t.claims == u.claims
    ensures HasReceipt(t, q) && At(t, w) == if acked then Completing(q, ReceiptOf(t, q)) else Failing(q)
    ensures HasRecord(t, q) && Rec(t, q) == Rec(u, q)
  {
    hide Inv, Run, Next, Grown;
    RenderingFacts(u, w);
    NoReceiptDocument(u, q);
    RenderIs(u, w);
    Then(s, u, before, Step(w, Render(Some(0), Some(0))));
    steps, t := before + [Step(w, Render(Some(0), Some(0)))], Next(u, Step(w, Render(Some(0), Some(0))));
    WriteIs(t, w);
    Then(s, t, steps, Step(w, WriteBlob(true, true)));
    steps, t := steps + [Step(w, WriteBlob(true, true))], Next(t, Step(w, WriteBlob(true, true)));
    WriteIs(t, w);
    Then(s, t, steps, Step(w, WriteBlob(true, true)));
    steps, t := steps + [Step(w, WriteBlob(true, true))], Next(t, Step(w, WriteBlob(true, true)));
    IssueIs(t, w, acked);
    Then(s, t, steps, Step(w, Issue(acked)));
    steps, t := steps + [Step(w, Issue(acked))], Next(t, Step(w, Issue(acked)));
    assert RecordId(q) in u.docs.docs;
  }

  lemma RenderingFacts(s: System, w: nat)
    requires Inv(s) && At(s, w).Rendering?
    ensures var r := At(s, w).record; r.package.Some? && r.manager.Some?
  {
    hide Inv, Authorized;
    CallerOk(s, w);
    AuthorizedHas(At(s, w).record);
  }

  // ---------------------------------------------------------------- failing, retrying, completing

  lemma MarksFailed(s: System, u: System, before: seq<Step>, w: nat, q: nat) returns (t: System, steps: seq<Step>)
    requires u == Run(Next, s, before) && Inv(u) && At(u, w) == Failing(q) && HasRecord(u, q) && Rec(u, q).state.Executing?
    ensures t == Run(Next, s, steps) && Inv(t) && At(t, w).Idle? && Beside(u, t, w)
    ensures HasRecord(t, q) && Rec(t, q) == Rec(u, q).(state := ExecutionFailed, revision := Rec(u, q).revision + 1)
  {
    hide Inv, Run, Next, Authorized, Grown;
    LaunchedFacts(u, q);
    NextIsLoaded(u, w);
    assert u.(built := u.built) == u;
    t, steps := LoadAndCommit(s, u, before, w, q, Step(w, LoadFail), Rec(u, q).(state := ExecutionFailed, revision := Rec(u, q).revision + 1), Idle, u.built);
  }

  lemma Retries(s: System, u: System, before: seq<Step>, w: nat, q: nat) returns (t: System, steps: seq<Step>)
    requires u == Run(Next, s, before) && Inv(u) && At(u, w).Idle? && HasRecord(u, q) && Rec(u, q).state.ExecutionFailed?
    ensures t == Run(Next, s, steps) && Inv(t) && At(t, w) == Launching(q) && Beside(u, t, w)
    ensures HasRecord(t, q) && Rec(t, q) == Rec(u, q).(state := Executing, revision := Rec(u, q).revision + 1)
  {
    hide Inv, Run, Next, Authorized, Grown;
    LaunchedFacts(u, q);
    NextIsCalled(u, w, q, true);
    Then(s, u, before, Step(w, Act.Retry(q)));
    var v := Goto(u, w, Retrying(q));
    NextIsLoaded(v, w);
    assert v.(built := v.built) == v;
    t, steps := LoadAndCommit(s, v, before + [Step(w, Act.Retry(q))], w, q, Step(w, LoadRetry), Rec(u, q).(state := Executing, revision := Rec(u, q).revision + 1), Launching(q), u.built);
    BesideFromHere(u, v, t, w);
  }

  lemma BesideFromHere(u: System, v: System, t: System, w: nat)
    requires v == u.(callers := v.callers) && (forall x: nat :: x != w ==> At(v, x) == At(u, x)) && Beside(v, t, w)
    ensures Beside(u, t, w)
  {
    forall x: nat | x != w ensures At(t, x) == At(u, x) {
      assert At(t, x) == At(v, x);
    }
    forall q: nat ensures HasReceipt(t, q) <==> HasReceipt(u, q) {
      assert HasReceipt(t, q) <==> HasReceipt(v, q);
    }
  }

  lemma Completes(s: System, u: System, before: seq<Step>, w: nat, q: nat) returns (t: System, steps: seq<Step>)
    requires u == Run(Next, s, before) && Inv(u) && At(u, w).Completing? && At(u, w).q == q && HasRecord(u, q)
    ensures t == Run(Next, s, steps) && Inv(t) && At(t, w) == Returned(q, At(u, w).payload) && Beside(u, t, w) && Grown(u, t)
    ensures HasRecord(t, q) && Rec(t, q) == Rec(u, q).(state := Completed, revision := Rec(u, q).revision + 1)
  {
    hide Inv, Run, Next, Grown;
    RecordFacts(u, q);
    NextIsLoaded(u, w);
    assert u.(built := u.built) == u;
    t, steps := LoadAndCommit(s, u, before, w, q, Step(w, LoadComplete), Rec(u, q).(state := Completed, revision := Rec(u, q).revision + 1), Returned(q, At(u, w).payload), u.built);
  }
}
