/** What the renewal machine guarantees over whole runs. */
module CoverageHistory {
  import opened Results
  import opened CoverageRecords
  import opened CoverageRenewal
  import opened CoverageSafety
  import opened DocumentStore
  import opened Traces
  import Invoices = InvoiceAllocator

  function After(config: Config, steps: seq<Step>): System {
    Run(Next, Initial(config), steps)
  }

  lemma Reaches(config: Config, steps: seq<Step>)
    ensures Inv(After(config, steps)) && After(config, steps).config == config
  {
    hide Inv;
    InitialOk(config);
    HistoryOnlyGrows(Initial(config), steps);
  }

  lemma Grows(config: Config, first: seq<Step>, second: seq<Step>)
    ensures Inv(After(config, first)) && Inv(After(config, first + second))
    ensures Grown(After(config, first), After(config, first + second))
    ensures After(config, first).config == config
  {
    hide Inv, Grown;
    Reaches(config, first);
    RunAppend(Next, Initial(config), first, second);
    HistoryOnlyGrows(After(config, first), second);
  }

  // ---------------------------------------------------------------- records and audit

  /** The event documents of a renewal number its revisions from zero without a gap, the last one
      has its state, and each step is one of the table, or the completion of a renewal that
      another attempt had just marked failed. */
  lemma AuditIsContiguous(config: Config, steps: seq<Step>, q: nat)
    requires HasRecord(After(config, steps), q)
    ensures var t := After(config, steps); var rev := Rec(t, q).revision;
      && (forall n: nat :: EventId(q, n) in t.docs.docs <==> n <= rev)
      && HasEvent(t, q, rev) && EventState(t, q, rev) == Rec(t, q).state
      && (forall n: nat :: n <= rev ==> HasEvent(t, q, n))
      && (forall n: nat, m: nat :: m == n + 1 <= rev ==>
            CanTransition(EventState(t, q, n), EventState(t, q, m))
            || (EventState(t, q, n).ExecutionFailed? && EventState(t, q, m).Completed?))
  {
    Reaches(config, steps);
    assert AuditOk(After(config, steps), q);
  }

  /** A renewal past the final gate has both approvals on its own recomputed package hash, by the
      two configured and different people. */
  lemma ExecutionIsAuthorized(config: Config, steps: seq<Step>, q: nat)
    requires var t := After(config, steps); HasRecord(t, q) && Launched(Rec(t, q).state)
    ensures var r := Rec(After(config, steps), q);
      && r.package.Some? && r.operations.Some? && r.manager.Some? && r.hash == Some(PackageHash(r.package.value))
      && r.package.value == Package(q, 1, r.customer, r.equipment, 12, r.package.value.content)
      && var o, m := r.operations.value, r.manager.value;
      && o.verdict.Approve? && m.verdict.Approve? && o.request == m.request == q && o.version == m.version == 1
      && o.hash == m.hash == r.hash.value && m.operationsId == o.id && m.operationsNote == o.note && o.at <= m.at
      && o.actor.folded == config.operations.folded && m.actor.folded == config.manager.folded
      && config.operations.folded != config.manager.folded
  {
    Reaches(config, steps);
    RecordFacts(After(config, steps), q);
  }

  /** From the Operations decision on the package is frozen, and from the Manager's on both
      decisions are; a launched renewal stays launched, a completed one never changes. */
  lemma DecisionsFreezeThePackage(config: Config, first: seq<Step>, second: seq<Step>, q: nat)
    requires HasRecord(After(config, first), q)
    ensures var r, t := Rec(After(config, first), q), After(config, first + second);
      && HasRecord(t, q)
      && (r.operations.Some? ==> Rec(t, q).package == r.package && Rec(t, q).hash == r.hash && Rec(t, q).operations == r.operations)
      && (r.manager.Some? ==> Rec(t, q).manager == r.manager)
      && (Launched(r.state) ==> Launched(Rec(t, q).state))
      && (r.state.Completed? ==> Rec(t, q) == r)
  {
    Grows(config, first, second);
  }

  // ---------------------------------------------------------------- the executor

  /** A renewal has at most one receipt, and it never changes: two moments show the same one. */
  lemma OneReceipt(config: Config, first: seq<Step>, second: seq<Step>, q: nat)
    requires HasReceipt(After(config, first), q)
    ensures var s, t := After(config, first), After(config, first + second);
      HasReceipt(t, q) && ReceiptOf(t, q) == ReceiptOf(s, q)
  {
    Grows(config, first, second);
  }

  /** Every `execute` and `retry` that returns yields the stored receipt. */
  lemma ExecuteReturnsTheReceipt(config: Config, steps: seq<Step>, w: nat)
    requires At(After(config, steps), w).Returned?
    ensures var t := After(config, steps); var p := At(t, w); HasReceipt(t, p.q) && ReceiptOf(t, p.q) == p.payload
  {
    hide Inv;
    Reaches(config, steps);
    CallerOk(After(config, steps), w);
  }

  /** A completed renewal stays as it is, and has its receipt; both documents are stored under
      the receipt's digests and were rendered from the approved package, as of the approval. */
  lemma CompletionIsFinal(config: Config, first: seq<Step>, second: seq<Step>, q: nat)
    requires var s := After(config, first); HasRecord(s, q) && Rec(s, q).state.Completed?
    ensures var s, t := After(config, first), After(config, first + second);
      && HasRecord(t, q) && Rec(t, q) == Rec(s, q)
      && HasReceipt(s, q) && HasReceipt(t, q) && ReceiptOf(t, q) == ReceiptOf(s, q)
      && Blob(t, q, Certificate, ReceiptOf(t, q)) && Blob(t, q, InvoicePdf, ReceiptOf(t, q))
      && DrawnFrom(Rec(t, q), ReceiptOf(t, q))
  {
    Grows(config, first, second);
    var t := After(config, first + second);
    assert ReceiptOk(t, q);
  }

  /** No download is ever refused by its hash check. What it serves has the digest on the receipt
      of a completed renewal, and the document and the renewal are those of the customer that
      asked. */
  lemma DownloadsVerify(config: Config, steps: seq<Step>, w: nat)
    ensures var t := After(config, steps);
      && !At(t, w).Corrupted?
      && (At(t, w).Fetching? ==> At(Next(t, Step(w, ReadBlob)), w).Served?)
      && (At(t, w).Served? ==>
            var p := At(t, w);
            && Finished(t, p.q) && HasReceipt(t, p.q) && Digest(p.bytes) == DigestOf(ReceiptOf(t, p.q), p.kind)
            && Rec(t, p.q).customer == p.customer && p.bytes.package.customer == p.customer && p.bytes.package.request == p.q
            && p.bytes.kind == p.kind)
  {
    hide Inv, Next;
    Reaches(config, steps);
    var t := After(config, steps);
    CallerOk(t, w);
    FetchServes(t, w);
    if At(t, w).Served? {
      ReceiptIsTheirs(t, At(t, w).q);
    }
  }

  lemma ReceiptIsTheirs(s: System, q: nat)
    requires Inv(s) && HasReceipt(s, q)
    ensures HasRecord(s, q) && Rec(s, q).package.Some? && DrawnFrom(Rec(s, q), ReceiptOf(s, q))
    ensures DraftedFor(Rec(s, q), Rec(s, q).package.value) && Rec(s, q).request == q
  {
    hide Callers, Carriers, Finishers, Drivers, DecisionsBuilt, Numbers;
    assert ReceiptOk(s, q);
  }

  lemma FetchServes(s: System, w: nat)
    requires Inv(s) && PositionOk(s, At(s, w))
    ensures At(s, w).Fetching? ==> At(Next(s, Step(w, ReadBlob)), w).Served?
  {
    hide Inv, NextFetch, PositionOk;
    if At(s, w).Fetching? {
      FetchKeeps(s, w, At(s, w));
    }
  }

  /** Receipts of different renewals carry different invoice numbers. */
  lemma InvoicesAreDistinct(config: Config, steps: seq<Step>, q: nat, r: nat)
    requires var t := After(config, steps); q != r && HasReceipt(t, q) && HasReceipt(t, r)
    ensures var t := After(config, steps); ReceiptOf(t, q).invoice != ReceiptOf(t, r).invoice
  {
    Reaches(config, steps);
    var t := After(config, steps);
    assert ReceiptOk(t, q) && ReceiptOk(t, r);
  }

  /** The create-only writes of an execution never meet an existing blob: a name is used by one
      attempt only. */
  lemma WritesMeetNoBlob(config: Config, steps: seq<Step>, w: nat)
    requires var p := At(After(config, steps), w); p.StoringCertificate? || p.StoringInvoice?
    ensures var t := After(config, steps); var p := At(t, w);
      BlobId(p.q, if p.StoringCertificate? then Certificate else InvoicePdf, p.payload.invoice) !in t.blobs
  {
    Reaches(config, steps);
    CallerOk(After(config, steps), w);
  }

  // ---------------------------------------------------------------- when a call allocates

  predicate NoOneAllocates(s: System, q: nat) {
    forall w :: w in s.callers && s.callers[w].Allocating? ==> s.callers[w].record.request != q
  }

  /** An authorized execution allocates exactly when it finds no receipt at its own check. */
  lemma AllocatesIffNoReceipt(config: Config, steps: seq<Step>, w: nat)
    requires At(After(config, steps), w).Checking?
    ensures var t := After(config, steps);
      At(Next(t, Step(w, ReadReceipt)), w).Allocating? <==> !HasReceipt(t, At(t, w).record.request)
  {
    hide Inv, PositionOk, Next;
    Reaches(config, steps);
    var t := After(config, steps);
    CallerOk(t, w);
    CheckingHasManager(t, At(t, w));
    CheckIs(t, w);
  }

  lemma CheckIs(s: System, w: nat)
    requires At(s, w).Checking?
    ensures Next(s, Step(w, ReadReceipt)) == NextReceipt(s, w, At(s, w))
  {
    hide Invoices.Next;
  }

  lemma CheckingHasManager(s: System, p: Position)
    requires PositionOk(s, p) && p.Checking?
    ensures p.record.manager.Some?
  {
  }

  /** No number was claimed, and no one but the caller moved, and not into the allocation. */
  predicate Aside(s: System, t: System, w: nat) {
    && t.claims == s.claims && t.book == s.book && t.config == s.config
    && (t.callers == s.callers || (t.callers == s.callers[w := At(t, w)] && !At(t, w).Allocating?))
  }

  lemma StepAllocates(s: System, step: Step, q: nat)
    requires Inv(s) && HasReceipt(s, q) && NoOneAllocates(s, q)
    ensures var t := Next(s, step);
      && NoOneAllocates(t, q)
      && forall n :: n in t.claims && t.claims[n] == q ==> n in s.claims && s.claims[n] == q
  {
    hide Inv, PositionOk, Next;
    CallerOk(s, step.caller);
    if ControllerStep(step.act) {
      ControllerAllocatesNothing(s, step);
    } else if step.act.Commit? {
      CommitAllocatesNothing(s, step.caller, step.act.acked);
    } else if step.act.ReadReceipt? || step.act.AllocateStep? || step.act.Collect? || step.act.Reserve? || step.act.Crash? {
      BookStepAllocates(s, step, q);
    } else {
      ExecutorAllocatesNothing(s, step);
    }
  }

  lemma BookStepAllocates(s: System, step: Step, q: nat)
    requires HasReceipt(s, q) && NoOneAllocates(s, q)
    requires step.act.ReadReceipt? || step.act.AllocateStep? || step.act.Collect? || step.act.Reserve? || step.act.Crash?
    ensures var t := Next(s, step);
      && NoOneAllocates(t, q)
      && forall n :: n in t.claims && t.claims[n] == q ==> n in s.claims && s.claims[n] == q
  {
    hide Invoices.Next;
  }

  predicate Produces(a: Act) {
    a.Render? || a.WriteBlob? || a.Issue? || a.LoadComplete? || a.LoadFail? || a.LoadRetry? || a.ReadBlob?
  }

  lemma ExecutorAllocatesNothing(s: System, step: Step)
    requires !ControllerStep(step.act) && !step.act.Commit?
    requires !step.act.ReadReceipt? && !step.act.AllocateStep? && !step.act.Collect? && !step.act.Reserve? && !step.act.Crash?
    ensures Aside(s, Next(s, step), step.caller)
  {
    hide Next;
    if Produces(step.act) {
      ProducerAllocatesNothing(s, step);
    } else {
      CallsAllocateNothing(s, step);
    }
  }

  lemma ProducerAllocatesNothing(s: System, step: Step)
    requires Produces(step.act)
    ensures Aside(s, Next(s, step), step.caller)
  {
    hide NextRender, NextWrite, NextIssue, NextComplete, NextFail, NextRetry, NextFetch;
    var w, p := step.caller, At(s, step.caller);
    WritesAllocateNothing(s, step, w, p);
    LoadsAllocateNothing(s, w, p);
  }

  lemma CallsAllocateNothing(s: System, step: Step)
    requires step.act.Execute? || step.act.LoadExecute? || step.act.Retry? || step.act.Download? || step.act.LoadDownload? || step.act.ReadIssued? || step.act.Return?
    ensures Aside(s, Next(s, step), step.caller)
  {
    hide Authorized;
  }

  lemma WritesAllocateNothing(s: System, step: Step, w: nat, p: Position)
    ensures step.act.Render? && p.Rendering? ==> Aside(s, NextRender(s, w, p, step.act.first, step.act.second), w)
    ensures step.act.WriteBlob? && (p.StoringCertificate? || p.StoringInvoice?) ==> Aside(s, NextWrite(s, w, p, step.act.ok, step.act.acked), w)
    ensures step.act.Issue? && p.Issuing? ==> Aside(s, NextIssue(s, w, p, step.act.acked), w)
  {
    hide Batch, Admits, DigestOf;
  }

  lemma LoadsAllocateNothing(s: System, w: nat, p: Position)
    ensures p.Completing? ==> Aside(s, NextComplete(s, w, p), w)
    ensures p.Failing? ==> Aside(s, NextFail(s, w, p), w)
    ensures p.Retrying? ==> Aside(s, NextRetry(s, w, p), w)
    ensures p.Fetching? ==> Aside(s, NextFetch(s, w, p), w)
  {
    hide Authorized, DigestOf;
  }

  lemma ControllerAllocatesNothing(s: System, step: Step)
    requires ControllerStep(step.act)
    ensures Aside(s, Next(s, step), step.caller)
  {
    hide Batch, Admits, Authorized, Moving, NextOperations, NextManager, NextDraft, NextReview;
    var w, p := step.caller, At(s, step.caller);
    if p.Beginning? || p.Holding? || p.Verifying? || p.Presenting? || p.Escalating? || p.Authorizing? {
      MovesAllocateNothing(s, w, p);
    }
    if p.OperationsDeciding? && step.act.LoadOperations? {
      DecisionsAllocateNothing(s, w, p, step.act.now, 0, step.act.id);
    }
    if p.ManagerDeciding? && step.act.LoadManager? {
      DecisionsAllocateNothing(s, w, p, step.act.now, step.act.year, step.act.id);
    }
    if p.Drafting? {
      DraftAllocatesNothing(s, w, p);
    }
    if step.act.Review? {
      ReviewAllocatesNothing(s, w, step.act.q, step.act.actor, step.act.command, step.act.byManager);
    }
  }

  lemma MovesAllocateNothing(s: System, w: nat, p: Position)
    requires p.Beginning? || p.Holding? || p.Verifying? || p.Presenting? || p.Escalating? || p.Authorizing?
    ensures forall target: RenewalState, done: Position :: Aside(s, Moving(s, w, p.q, target, done), w)
  {
    hide CanTransition;
  }

  lemma DecisionsAllocateNothing(s: System, w: nat, p: Position, now: int, year: int, id: nat)
    ensures p.OperationsDeciding? ==> Aside(s, NextOperations(s, w, p, now, id), w)
    ensures p.ManagerDeciding? ==> Aside(s, NextManager(s, w, p, now, year, id), w)
  {
    hide CanTransition, SamePerson, Reasoned;
  }

  lemma DraftAllocatesNothing(s: System, w: nat, p: Position)
    requires p.Drafting?
    ensures Aside(s, NextDraft(s, w, p), w)
  {
    hide CanTransition;
  }

  lemma ReviewAllocatesNothing(s: System, w: nat, q: nat, actor: ObjectId, command: Command, byManager: bool)
    ensures Aside(s, NextReview(s, w, q, actor, command, byManager), w)
  {
    hide Recorded, Restates;
  }

  lemma CommitAllocatesNothing(s: System, w: nat, acked: bool)
    requires PositionOk(s, At(s, w))
    ensures Aside(s, Next(s, Step(w, Commit(acked))), w)
  {
    hide Batch, Admits, SnapOk, RecordOk, Evolves, RecordBuilt;
  }

  /** Once a renewal has its receipt, and no call that had passed its check is still allocating,
      no number is ever allocated for it again. */
  lemma {:induction false} ReceiptEndsAllocation(config: Config, first: seq<Step>, second: seq<Step>, q: nat)
    requires HasReceipt(After(config, first), q) && NoOneAllocates(After(config, first), q)
    ensures var s, t := After(config, first), After(config, first + second);
      && NoOneAllocates(t, q)
      && forall n :: n in t.claims && t.claims[n] == q ==> n in s.claims && s.claims[n] == q
  {
    hide Inv, Grown, Next, NoOneAllocates;
    if second == [] {
      assert first + second == first;
    } else {
      var init, last := second[..|second| - 1], second[|second| - 1];
      ReceiptEndsAllocation(config, first, init, q);
      OneReceipt(config, first, init, q);
      Reaches(config, first + init);
      StepAllocates(After(config, first + init), last, q);
      RunAppend(Next, Initial(config), first + init, [last]);
      RunOne(Next, After(config, first + init), last);
      assert first + second == first + init + [last];
    }
  }

  // ---------------------------------------------------------------- driven only by start

  /** When only `start` drives investigations, a package is drafted at most once. */
  lemma PackageIsDraftedOnce(config: Config, first: seq<Step>, second: seq<Step>, q: nat)
    requires !config.redriven
    requires var s := After(config, first); HasRecord(s, q) && Rec(s, q).package.Some?
    ensures var r, t := Rec(After(config, first), q), After(config, first + second);
      HasRecord(t, q) && Rec(t, q).package == r.package && Rec(t, q).hash == r.hash
  {
    Grows(config, first, second);
  }

  /** A decision with this id and hash was built from a command that restated this hash. */
  ghost predicate Shown(built: seq<Built>, q: nat, id: nat, hash: PackageHash) {
    exists i :: 0 <= i < |built| && built[i].q == q && built[i].id == id && built[i].recorded == hash && built[i].restated == hash
  }

  /** Then every stored decision carries the hash its reviewer restated. */
  lemma DecisionsMatchWhatWasShown(config: Config, steps: seq<Step>, q: nat)
    requires !config.redriven && HasRecord(After(config, steps), q)
    ensures var t := After(config, steps); var r := Rec(t, q);
      && (r.operations.Some? ==> Shown(t.built, q, r.operations.value.id, r.operations.value.hash))
      && (r.manager.Some? ==> Shown(t.built, q, r.manager.value.id, r.manager.value.hash))
  {
    Reaches(config, steps);
    var t := After(config, steps);
    RecordFacts(t, q);
    hide Inv, RecordOk;
    BuiltFacts(t, q);
    var r := Rec(t, q);
    if r.operations.Some? {
      WasShown(t, q, r.operations.value.id, r.operations.value.hash);
    }
    if r.manager.Some? {
      WasShown(t, q, r.manager.value.id, r.manager.value.hash);
    }
  }

  lemma WasShown(s: System, q: nat, id: nat, hash: PackageHash)
    requires BuiltOk(s) && !s.config.redriven && WasBuilt(s.built, q, id, hash)
    ensures Shown(s.built, q, id, hash)
  {
    var i :| 0 <= i < |s.built| && s.built[i].q == q && s.built[i].id == id && s.built[i].recorded == hash;
    assert s.built[i].restated == hash;
  }

  lemma BuiltFacts(s: System, q: nat)
    requires Inv(s) && HasRecord(s, q)
    ensures RecordBuilt(s.built, Rec(s, q)) && BuiltOk(s)
  {
  }

  // ---------------------------------------------------------------- repeated decisions

  function DecisionOf(s: System, q: nat, byManager: bool): Option<(ObjectId, Verdict, PackageHash)>
    requires HasRecord(s, q)
  {
    var r := Rec(s, q);
    if byManager then
      if r.manager.None? then None else Some((r.manager.value.actor, r.manager.value.verdict, r.manager.value.hash))
    else
      if r.operations.None? then None else Some((r.operations.value.actor, r.operations.value.verdict, r.operations.value.hash))
  }

  lemma DecisionStays(config: Config, first: seq<Step>, second: seq<Step>, q: nat, byManager: bool)
    requires HasRecord(After(config, first), q) && DecisionOf(After(config, first), q, byManager).Some?
    ensures HasRecord(After(config, first + second), q)
    ensures DecisionOf(After(config, first + second), q, byManager) == DecisionOf(After(config, first), q, byManager)
  {
    DecisionsFreezeThePackage(config, first, second, q);
  }

  lemma ReviewIs(s: System, w: nat, q: nat, actor: ObjectId, command: Command, byManager: bool)
    ensures Next(s, Step(w, Review(q, actor, command, byManager))) == if At(s, w).Idle? then NextReview(s, w, q, actor, command, byManager) else s
  {
    hide NextReview;
  }

  /** Once a decision is stored, the identical callback changes nothing, whenever it is repeated
      and by whichever caller: neither revision nor events nor anything else. */
  lemma RecordedDecisionsReplay(config: Config, first: seq<Step>, second: seq<Step>, w: nat, q: nat, actor: ObjectId, command: Command, byManager: bool)
    requires HasRecord(After(config, first), q)
    requires var d := DecisionOf(After(config, first), q, byManager);
      d.Some? && SamePerson(d.value.0, actor) && d.value.1 == command.verdict && d.value.2 == command.hash
    ensures var t := After(config, first + second); Next(t, Step(w, Review(q, actor, command, byManager))) == t
  {
    hide After, Next;
    DecisionStays(config, first, second, q, byManager);
    ReviewIs(After(config, first + second), w, q, actor, command, byManager);
  }

  /** A call that is about to decide, or has built a decision that is not stored yet. */
  predicate InFlight(p: Position, q: nat, byManager: bool) {
    if byManager then
      || (p.ManagerDeciding? && p.q == q)
      || (p.Committing? && p.updated.request == q && p.prior.manager.None? && p.updated.manager.Some?)
    else
      || (p.OperationsDeciding? && p.q == q)
      || (p.Committing? && p.updated.request == q && p.prior.operations.None? && p.updated.operations.Some?)
  }

  /** Two callbacks in flight together, identical or not: once a decision is stored, every other
      one fails at its next step and stores nothing. */
  lemma LateDecisionsFail(config: Config, steps: seq<Step>, w: nat, q: nat, byManager: bool, acked: bool, now: int, year: int, id: nat)
    requires var t := After(config, steps);
      HasRecord(t, q) && DecisionOf(t, q, byManager).Some? && InFlight(At(t, w), q, byManager)
    ensures var t, p := After(config, steps), At(After(config, steps), w);
      && (p.OperationsDeciding? ==> Next(t, Step(w, LoadOperations(now, id))) == Goto(t, w, Idle))
      && (p.ManagerDeciding? ==> Next(t, Step(w, LoadManager(now, year, id))) == Goto(t, w, Idle))
      && (p.Committing? ==> Next(t, Step(w, Commit(acked))) == Goto(t, w, Idle))
  {
    hide Inv, Next;
    Reaches(config, steps);
    var t := After(config, steps);
    CallerOk(t, w);
    RecordFacts(t, q);
    LateLoadIs(t, w, q, byManager, now, year, id);
    if At(t, w).Committing? {
      LateCommitIs(t, w, q, byManager, acked);
    }
  }

  lemma LateLoadIs(s: System, w: nat, q: nat, byManager: bool, now: int, year: int, id: nat)
    requires HasRecord(s, q) && DecisionOf(s, q, byManager).Some? && InFlight(At(s, w), q, byManager) && RecordOk(s.config, Rec(s, q))
    ensures At(s, w).OperationsDeciding? ==> Next(s, Step(w, LoadOperations(now, id))) == Goto(s, w, Idle)
    ensures At(s, w).ManagerDeciding? ==> Next(s, Step(w, LoadManager(now, year, id))) == Goto(s, w, Idle)
  {
    hide OperationsOk, ManagerOk, Authorized, SamePerson, Reasoned, Advance;
  }

  lemma LateCommitIs(s: System, w: nat, q: nat, byManager: bool, acked: bool)
    requires HasRecord(s, q) && DecisionOf(s, q, byManager).Some? && InFlight(At(s, w), q, byManager) && At(s, w).Committing?
    requires PositionOk(s, At(s, w))
    ensures Next(s, Step(w, Commit(acked))) == Goto(s, w, Idle)
  {
    hide RecordOk, RecordLater, RecordBuilt, LeadsTo, Batch, StepOk, Consistent;
    var p := At(s, w);
    assert p.prior.request == q && TagOf(s, q) != p.etag;
    assert RecordId(q) in CommitWrites(p.updated, p.etag);
  }

  /** A callback by another person, for another verdict or for another package is never taken for
      the stored decision: it is refused at once, or its caller is refused at its next step. */
  lemma OtherCallbacksFail(config: Config, first: seq<Step>, second: seq<Step>, w: nat, q: nat, actor: ObjectId, command: Command,
                           byManager: bool, now: int, year: int, id: nat)
    requires HasRecord(After(config, first), q)
    requires var d := DecisionOf(After(config, first), q, byManager);
      d.Some? && (d.value.0.folded != actor.folded || d.value.1 != command.verdict || d.value.2 != command.hash)
    requires At(After(config, first + second), w).Idle?
    ensures var t := After(config, first + second); var u := Next(t, Step(w, Review(q, actor, command, byManager)));
      || u == t
      || (byManager && u == Goto(t, w, ManagerDeciding(q, actor, command)) && Next(u, Step(w, LoadManager(now, year, id))) == Goto(u, w, Idle))
      || (!byManager && u == Goto(t, w, OperationsDeciding(q, actor, command)) && Next(u, Step(w, LoadOperations(now, id))) == Goto(u, w, Idle))
  {
    hide Inv, Next, After;
    DecisionStays(config, first, second, q, byManager);
    var t := After(config, first + second);
    ReviewIs(t, w, q, actor, command, byManager);
    var u := Next(t, Step(w, Review(q, actor, command, byManager)));
    NotTheSame(t, q, actor, command, byManager);
    if u != t {
      Reaches(config, first + second);
      RecordFacts(t, q);
      LateLoadIs(u, w, q, byManager, now, year, id);
    }
  }

  lemma NotTheSame(s: System, q: nat, actor: ObjectId, command: Command, byManager: bool)
    requires HasRecord(s, q)
    ensures Recorded(Rec(s, q), actor, command, byManager) <==>
      var d := DecisionOf(s, q, byManager); d.Some? && d.value.0.folded == actor.folded && d.value.1 == command.verdict && d.value.2 == command.hash
  {
  }

  /** The step at which a decision is stored. */
  predicate Decides(config: Config, steps: seq<Step>, i: nat, q: nat, byManager: bool)
    requires i < |steps|
  {
    && HasRecord(After(config, steps[..i + 1]), q) && DecisionOf(After(config, steps[..i + 1]), q, byManager).Some?
    && (HasRecord(After(config, steps[..i]), q) ==>
          DecisionOf(After(config, steps[..i]), q, byManager) != DecisionOf(After(config, steps[..i + 1]), q, byManager))
  }

  /** At most one decision of each kind is ever stored for a renewal, however many callbacks come
      and however they interleave. */
  lemma OneDecisionEach(config: Config, steps: seq<Step>, i: nat, j: nat, q: nat, byManager: bool)
    requires i < j < |steps| && Decides(config, steps, i, q, byManager)
    ensures !Decides(config, steps, j, q, byManager)
  {
    hide After;
    DecisionStays(config, steps[..i + 1], steps[i + 1..j], q, byManager);
    assert steps[..i + 1] + steps[i + 1..j] == steps[..j];
    DecisionStays(config, steps[..i + 1], steps[i + 1..j + 1], q, byManager);
    assert steps[..i + 1] + steps[i + 1..j + 1] == steps[..j + 1];
  }
}
