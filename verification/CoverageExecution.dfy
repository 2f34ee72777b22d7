/** `CoverageExecutor.execute`, `_fail` and `retry`, and the runner's `_drain`, as they run, with
    the other callers running wherever the store or the storage is awaited. */
module CoverageExecution {
  import opened Results
  import opened CoverageRecords
  import opened CoverageRenewal
  import opened CoverageSafety
  import opened CoverageHistory
  import opened DocumentStore
  import opened Traces
  import Invoices = InvoiceAllocator

  datatype Failure = NotAuthorized | ConflictRaised | ErrorRaised

  /** What one awaited moment brings: the steps of the others, whether a write is performed and
      acknowledged, and the customer's name each time it is read, if it can be. */
  datatype Moment = Moment(others: seq<Step>, ok: bool, acked: bool, names: (Option<nat>, Option<nat>))

  type World = nat -> Moment

  ghost predicate LeavesMeAlone(me: nat, world: World) {
    forall n: nat, i :: 0 <= i < |world(n).others| ==> world(n).others[i].caller != me
  }

  lemma {:induction false} OthersLeaveMe(s: System, me: nat, steps: seq<Step>)
    requires forall i :: 0 <= i < |steps| ==> steps[i].caller != me
    ensures var t := Run(Next, s, steps);
      At(t, me) == At(s, me) && t.config == s.config && Invoices.At(t.book, me) == Invoices.At(s.book, me)
  {
    if steps != [] {
      OthersLeaveMe(s, me, steps[..|steps| - 1]);
      OtherLeavesMe(Run(Next, s, steps[..|steps| - 1]), me, steps[|steps| - 1]);
    }
  }

  lemma OtherLeavesMe(s: System, me: nat, step: Step)
    requires step.caller != me
    ensures var t := Next(s, step);
      At(t, me) == At(s, me) && t.config == s.config && Invoices.At(t.book, me) == Invoices.At(s.book, me)
  {
    hide Next;
    if ControllerStep(step.act) {
      ControllerAllocatesNothing(s, step);
    } else if step.act.Commit? {
      CommitLeavesMe(s, me, step.caller, step.act.acked);
    } else if step.act.ReadReceipt? || step.act.AllocateStep? || step.act.Collect? || step.act.Reserve? || step.act.Crash? {
      BookLeavesMe(s, me, step);
    } else {
      ExecutorAllocatesNothing(s, step);
    }
  }

  lemma CommitLeavesMe(s: System, me: nat, w: nat, acked: bool)
    requires w != me
    ensures var t := Next(s, Step(w, Commit(acked))); At(t, me) == At(s, me) && t.config == s.config && t.book == s.book
  {
    hide Batch, Admits, Consistent;
  }

  lemma BookLeavesMe(s: System, me: nat, step: Step)
    requires step.caller != me
    requires step.act.ReadReceipt? || step.act.AllocateStep? || step.act.Collect? || step.act.Reserve? || step.act.Crash?
    ensures var t := Next(s, step);
      At(t, me) == At(s, me) && t.config == s.config && Invoices.At(t.book, me) == Invoices.At(s.book, me)
  {
    hide Invoices.Next;
    forall b: Invoices.Ledger, act: Invoices.Act
      ensures Invoices.At(Invoices.Next(b, Invoices.Step(step.caller, act)), me) == Invoices.At(b, me)
    {
      Invoices.OtherLeavesMe(b, me, Invoices.Step(step.caller, act));
    }
  }

  lemma NoSteps(s: System)
    ensures Run(Next, s, []) == s
  {
  }

  // ---------------------------------------------------------------- single steps, unfolded

  lemma NextIsLoaded(s: System, me: nat)
    ensures At(s, me).Launching? ==> Next(s, Step(me, LoadExecute)) == NextExecute(s, me, At(s, me))
    ensures At(s, me).Checking? ==> Next(s, Step(me, ReadReceipt)) == NextReceipt(s, me, At(s, me))
    ensures At(s, me).Completing? ==> Next(s, Step(me, LoadComplete)) == NextComplete(s, me, At(s, me))
    ensures At(s, me).Failing? ==> Next(s, Step(me, LoadFail)) == NextFail(s, me, At(s, me))
    ensures At(s, me).Retrying? ==> Next(s, Step(me, LoadRetry)) == NextRetry(s, me, At(s, me))
  {
    hide NextExecute, NextReceipt, NextComplete, NextFail, NextRetry;
  }

  lemma NextIsWritten(s: System, me: nat, first: Option<nat>, second: Option<nat>, ok: bool, acked: bool)
    ensures At(s, me).Rendering? ==> Next(s, Step(me, Render(first, second))) == NextRender(s, me, At(s, me), first, second)
    ensures At(s, me).StoringCertificate? || At(s, me).StoringInvoice? ==> Next(s, Step(me, WriteBlob(ok, acked))) == NextWrite(s, me, At(s, me), ok, acked)
    ensures At(s, me).Issuing? ==> Next(s, Step(me, Issue(acked))) == NextIssue(s, me, At(s, me), acked)
    ensures At(s, me).Committing? ==> Next(s, Step(me, Commit(acked))) == NextCommit(s, me, At(s, me), acked)
  {
    hide NextRender, NextWrite, NextIssue, NextCommit;
  }

  lemma NextIsBooked(s: System, me: nat, act: Invoices.Act)
    requires At(s, me).Allocating?
    ensures act.Read? || act.Open? || act.Take? ==> Next(s, Step(me, AllocateStep(act))) == Booked(s, me, act)
    ensures Next(s, Step(me, Collect)) == NextCollect(s, me, At(s, me))
  {
    hide NextCollect;
  }

  lemma NextIsCalled(s: System, me: nat, q: nat, thenExecute: bool)
    requires At(s, me).Idle?
    ensures Next(s, Step(me, Execute(q))) == Goto(s, me, Launching(q))
    ensures Next(s, Step(me, Retry(q))) == Goto(s, me, Retrying(q))
    ensures Next(s, Step(me, Authorize(q, thenExecute))) == Goto(s, me, Authorizing(q, thenExecute))
  {
  }

  lemma NextIsReturn(s: System, me: nat)
    requires At(s, me).Returned?
    ensures Next(s, Step(me, Return)) == Goto(s, me, Idle)
  {
  }

  lemma CommittedIsStored(docs: Store, r: Record, etag: nat)
    requires Admits(docs, CommitWrites(r, etag))
    ensures var after := Batch(docs, CommitWrites(r, etag));
      RecordId(r.request) in after.docs && after.docs[RecordId(r.request)].body == RecordDoc(r)
  {
    BatchContents(docs, CommitWrites(r, etag));
    assert RecordId(r.request) in CommitWrites(r, etag);
  }

  class Executor {
    const config: Config
    var docs: Store
    var book: Invoices.Ledger
    var blobs: map<BlobId, Bytes>
    var claims: map<Invoices.Invoice, nat>
    var built: seq<Built>
    var callers: map<nat, Position>

    constructor (config: Config)
      ensures State() == Initial(config)
    {
      this.config := config;
      docs, book, blobs, claims, built, callers := Partition(map[], 0), Invoices.NEW_LEDGER, map[], map[], [], map[];
    }

    function State(): System
      reads this
    {
      System(config, docs, book, blobs, claims, built, callers)
    }

    method Await(me: nat, others: seq<Step>)
      requires forall i :: 0 <= i < |others| ==> others[i].caller != me
      modifies this
      ensures State() == Run(Next, old(State()), others)
      ensures At(State(), me) == old(At(State(), me))
      ensures Invoices.At(book, me) == old(Invoices.At(book, me))
    {
      OthersLeaveMe(State(), me, others);
      var s := Run(Next, State(), others);
      docs, book, blobs, claims, built, callers := s.docs, s.book, s.blobs, s.claims, s.built, s.callers;
    }

    /** The others run, and then this caller's step is the given one. */
    ghost method Extend(s0: System, before: seq<Step>, s1: System, others: seq<Step>, step: Step) returns (trace: seq<Step>)
      requires s1 == Run(Next, s0, before) && State() == Run(Next, s1, others)
      ensures Next(State(), step) == Run(Next, s0, trace)
    {
      hide Next, Run;
      RunExtend(Next, s0, s1, before, others, State(), step);
      trace := before + others + [step];
    }

    /** A store commit: the snapshot under its tag, and its event. */
    method CommitRecord(me: nat, prior: Record, updated: Record, etag: nat, done: Position, world: World, tick: nat,
                        ghost s0: System, ghost before: seq<Step>)
      returns (ok: bool, ghost trace: seq<Step>)
      requires LeavesMeAlone(me, world) && At(State(), me) == Committing(prior, updated, etag, done) && State() == Run(Next, s0, before)
      modifies this
      ensures State() == Run(Next, s0, trace)
      ensures At(State(), me) == if ok then done else Idle
      ensures ok ==> HasRecord(State(), updated.request) && Rec(State(), updated.request) == updated
    {
      hide Next, Run, Batch, Admits, Consistent;
      ghost var s1 := State();
      Await(me, world(tick).others);
      NextIsWritten(State(), me, None, None, true, world(tick).acked);
      trace := Extend(s0, before, s1, world(tick).others, Step(me, Commit(world(tick).acked)));
      var operations := CommitWrites(updated, etag);
      ok := false;
      if Consistent(updated) && Admits(docs, operations) {
        CommittedIsStored(docs, updated, etag);
        docs := Batch(docs, operations);
        ok := world(tick).acked;
      }
      callers := callers[me := if ok then done else Idle];
    }

    /** `_fail`: an executing renewal is marked failed; nothing that goes wrong here matters. */
    method Fail(me: nat, q: nat, world: World, tick: nat, ghost s0: System, ghost before: seq<Step>) returns (ghost trace: seq<Step>)
      requires LeavesMeAlone(me, world) && At(State(), me) == Failing(q) && State() == Run(Next, s0, before)
      modifies this
      ensures State() == Run(Next, s0, trace)
      ensures At(State(), me) == Idle
    {
      hide Next, Run;
      ghost var s1 := State();
      Await(me, world(tick).others);
      NextIsLoaded(State(), me);
      trace := Extend(s0, before, s1, world(tick).others, Step(me, LoadFail));
      if !HasRecord(State(), q) || !docs.docs[RecordId(q)].body.record.state.Executing? {
        callers := callers[me := Idle];
        return;
      }
      var record, etag := docs.docs[RecordId(q)].body.record, docs.docs[RecordId(q)].etag;
      var failed := record.(state := ExecutionFailed, revision := record.revision + 1);
      callers := callers[me := Committing(record, failed, etag, Idle)];
      var ok;
      ok, trace := CommitRecord(me, record, failed, etag, Idle, world, tick + 1, s0, trace);
    }

    /** One round of the allocation loop in the invoice book: a read and a batch. */
    method AllocateOnce(me: nat, record: Record, year: int, tries: nat, world: World, tick: nat, ghost s0: System, ghost before: seq<Step>)
      returns (over: bool, ghost trace: seq<Step>)
      requires LeavesMeAlone(me, world) && tries > 0
      requires At(State(), me) == Allocating(record) && Invoices.At(book, me) == Invoices.Reading(year, tries) && State() == Run(Next, s0, before)
      modifies this
      ensures State() == Run(Next, s0, trace) && At(State(), me) == Allocating(record)
      ensures !over ==> tries > 1 && Invoices.At(book, me) == Invoices.Reading(year, tries - 1)
      ensures over ==> Invoices.At(book, me).Done? || Invoices.At(book, me).GaveUp?
    {
      hide Next, Run, Invoices.Next, Batch, Admits;
      ghost var s1 := State();
      Await(me, world(tick).others);
      NextIsBooked(State(), me, Invoices.Read);
      trace := Extend(s0, before, s1, world(tick).others, Step(me, AllocateStep(Invoices.Read)));
      Invoices.ReadIs(book, me);
      book := Invoices.NextRead(book, me, Invoices.At(book, me));
      var p := Invoices.At(book, me);
      if p.GaveUp? {
        return true, trace;
      }
      ghost var s2 := State();
      Await(me, world(tick + 1).others);
      var acked := world(tick + 1).acked;
      if p.Opening? {
        NextIsBooked(State(), me, Invoices.Open(acked));
        trace := Extend(s0, trace, s2, world(tick + 1).others, Step(me, AllocateStep(Invoices.Open(acked))));
        Invoices.OpenIs(book, me, acked);
        book := Invoices.NextOpen(book, me, p, acked);
      } else {
        NextIsBooked(State(), me, Invoices.Take(acked));
        trace := Extend(s0, trace, s2, world(tick + 1).others, Step(me, AllocateStep(Invoices.Take(acked))));
        Invoices.TakeIs(book, me, acked);
        book := Invoices.NextTake(book, me, p, acked);
      }
      over := !Invoices.At(book, me).Reading?;
    }

    /** The allocation: at most five rounds, and the number is this request's. */
    method Allocate(me: nat, record: Record, year: int, world: World, tick: nat, ghost s0: System, ghost before: seq<Step>)
      returns (r: Result<Invoices.Invoice, Failure>, ghost trace: seq<Step>)
      requires LeavesMeAlone(me, world)
      requires At(State(), me) == Allocating(record) && Invoices.At(book, me) == Invoices.Reading(year, Invoices.ATTEMPTS)
      requires State() == Run(Next, s0, before)
      modifies this
      ensures State() == Run(Next, s0, trace)
      ensures At(State(), me) == match r
                                 case Ok(n) => Rendering(record, n)
                                 case Err(e) => if e.ConflictRaised? then Idle else Failing(record.request)
    {
      hide Next, Run, Invoices.Next;
      trace := before;
      var over, attempt := false, 0;
      while !over
        invariant 0 <= attempt <= Invoices.ATTEMPTS
        invariant State() == Run(Next, s0, trace) && At(State(), me) == Allocating(record)
        invariant !over ==> attempt < Invoices.ATTEMPTS && Invoices.At(book, me) == Invoices.Reading(year, Invoices.ATTEMPTS - attempt)
        invariant over ==> Invoices.At(book, me).Done? || Invoices.At(book, me).GaveUp?
        decreases Invoices.ATTEMPTS - attempt, !over
      {
        over, trace := AllocateOnce(me, record, year, Invoices.ATTEMPTS - attempt, world, tick + 2 * attempt, s0, trace);
        attempt := attempt + 1;
      }
      NextIsBooked(State(), me, Invoices.Read);
      ghost var s := State();
      NoSteps(s);
      trace := Extend(s0, trace, s, [], Step(me, Collect));
      var held := Invoices.At(book, me);
      book := Invoices.Next(book, Invoices.Step(me, Invoices.Collect));
      if held.GaveUp? {
        callers := callers[me := if held.failure.ConflictRaised? then Idle else Failing(record.request)];
        return Err(if held.failure.ConflictRaised? then ConflictRaised else ErrorRaised), trace;
      }
      claims := claims[held.invoice := record.request];
      callers := callers[me := Rendering(record, held.invoice)];
      r := Ok(held.invoice);
    }

    /** One create-only write to the artifact storage. */
    method WriteArtifact(me: nat, q: nat, kind: Kind, payload: Payload, world: World, tick: nat, ghost s0: System, ghost before: seq<Step>)
      returns (ok: bool, ghost trace: seq<Step>)
      requires LeavesMeAlone(me, world) && State() == Run(Next, s0, before)
      requires At(State(), me) == if kind.Certificate? then StoringCertificate(q, payload) else StoringInvoice(q, payload)
      modifies this
      ensures State() == Run(Next, s0, trace)
      ensures At(State(), me) == if !ok then Failing(q) else if kind.Certificate? then StoringInvoice(q, payload) else Issuing(q, payload)
    {
      hide Next, Run;
      ghost var s1 := State();
      Await(me, world(tick).others);
      var moment := world(tick);
      NextIsWritten(State(), me, None, None, moment.ok, moment.acked);
      trace := Extend(s0, before, s1, moment.others, Step(me, WriteBlob(moment.ok, moment.acked)));
      var name := BlobId(q, kind, payload.invoice);
      if moment.ok && name !in blobs {
        blobs := blobs[name := DigestOf(payload, kind).bytes];
      }
      ok := moment.ok && moment.acked;
      callers := callers[me := if !ok then Failing(q) else if kind.Certificate? then StoringInvoice(q, payload) else Issuing(q, payload)];
    }

    /** The create-once receipt. */
    method CreateExecution(me: nat, q: nat, payload: Payload, world: World, tick: nat, ghost s0: System, ghost before: seq<Step>)
      returns (r: Option<Failure>, ghost trace: seq<Step>)
      requires LeavesMeAlone(me, world) && At(State(), me) == Issuing(q, payload) && State() == Run(Next, s0, before)
      modifies this
      ensures State() == Run(Next, s0, trace)
      ensures At(State(), me) == match r
                                 case None => Completing(q, payload)
                                 case Some(e) => if e.ConflictRaised? then Idle else Failing(q)
    {
      hide Next, Run, Admits, Batch;
      ghost var s1 := State();
      Await(me, world(tick).others);
      var acked := world(tick).acked;
      NextIsWritten(State(), me, None, None, true, acked);
      trace := Extend(s0, before, s1, world(tick).others, Step(me, Issue(acked)));
      var operations := ReceiptWrites(q, payload);
      if !Admits(docs, operations) {
        callers := callers[me := Idle];
        return Some(ConflictRaised), trace;
      }
      docs := Batch(docs, operations);
      callers := callers[me := if acked then Completing(q, payload) else Failing(q)];
      r := if acked then None else Some(ErrorRaised);
    }

    /** The part of `execute` that any exception but a conflict marks failed: the number, both
        documents, and the receipt. */
    method Produce(me: nat, record: Record, year: int, world: World, tick: nat, ghost s0: System, ghost before: seq<Step>)
      returns (r: Result<Payload, Failure>, ghost trace: seq<Step>)
      requires LeavesMeAlone(me, world) && record.package.Some? && record.manager.Some?
      requires At(State(), me) == Allocating(record) && Invoices.At(book, me) == Invoices.Reading(year, Invoices.ATTEMPTS)
      requires State() == Run(Next, s0, before)
      modifies this
      ensures State() == Run(Next, s0, trace)
      ensures At(State(), me) == match r
                                 case Ok(payload) => Completing(record.request, payload)
                                 case Err(e) => if e.ConflictRaised? then Idle else Failing(record.request)
      ensures r.Ok? ==>
        world(tick + 10).names == (Some(r.value.certificate.bytes.customerName), Some(r.value.invoicePdf.bytes.customerName))
    {
      hide Next, Run;
      var q := record.request;
      var number;
      number, trace := Allocate(me, record, year, world, tick, s0, before);
      if number.Err? {
        return Err(number.error), trace;
      }
      var n := number.value;
      ghost var s1 := State();
      Await(me, world(tick + 10).others);
      var first, second := world(tick + 10).names.0, world(tick + 10).names.1;
      NextIsWritten(State(), me, first, second, true, true);
      trace := Extend(s0, trace, s1, world(tick + 10).others, Step(me, Render(first, second)));
      if first.None? || second.None? {
        callers := callers[me := Failing(q)];
        return Err(ErrorRaised), trace;
      }
      var certificate := Bytes(Certificate, record.package.value, record.manager.value.at, n, first.value);
      var invoice := Bytes(InvoicePdf, record.package.value, record.manager.value.at, n, second.value);
      var payload := Payload(n, Digest(certificate), Digest(invoice));
      callers := callers[me := StoringCertificate(q, payload)];
      r, trace := Publish(me, q, payload, world, tick + 11, s0, trace);
    }

    method Publish(me: nat, q: nat, payload: Payload, world: World, tick: nat, ghost s0: System, ghost before: seq<Step>)
      returns (r: Result<Payload, Failure>, ghost trace: seq<Step>)
      requires LeavesMeAlone(me, world) && At(State(), me) == StoringCertificate(q, payload) && State() == Run(Next, s0, before)
      modifies this
      ensures State() == Run(Next, s0, trace)
      ensures At(State(), me) == match r
                                 case Ok(_) => Completing(q, payload)
                                 case Err(e) => if e.ConflictRaised? then Idle else Failing(q)
      ensures r.Ok? ==> r.value == payload
    {
      hide Next, Run;
      var ok;
      ok, trace := WriteArtifact(me, q, Certificate, payload, world, tick, s0, before);
      if !ok {
        return Err(ErrorRaised), trace;
      }
      ok, trace := WriteArtifact(me, q, InvoicePdf, payload, world, tick + 1, s0, trace);
      if !ok {
        return Err(ErrorRaised), trace;
      }
      var failure;
      failure, trace := CreateExecution(me, q, payload, world, tick + 2, s0, trace);
      r := if failure.None? then Ok(payload) else Err(failure.value);
    }

    /** `execute`, from the gate on. */
    method ExecuteFrom(me: nat, q: nat, world: World, tick: nat, ghost s0: System, ghost before: seq<Step>)
      returns (r: Result<Payload, Failure>, ghost trace: seq<Step>)
      requires LeavesMeAlone(me, world) && At(State(), me) == Launching(q) && State() == Run(Next, s0, before)
      requires Inv(s0)
      modifies this
      ensures State() == Run(Next, s0, trace)
      ensures At(State(), me) == Idle
      ensures r.Ok? ==> Issued(State(), q, r.value)
    {
      hide Next, Run, Inv, Authorized, Issued;
      ghost var s1 := State();
      Await(me, world(tick).others);
      NextIsLoaded(State(), me);
      trace := Extend(s0, before, s1, world(tick).others, Step(me, LoadExecute));
      if !HasRecord(State(), q) || !docs.docs[RecordId(q)].body.record.state.Executing? || !Authorized(docs.docs[RecordId(q)].body.record) {
        callers := callers[me := Idle];
        return Err(NotAuthorized), trace;
      }
      var record := docs.docs[RecordId(q)].body.record;
      AuthorizedHas(record);
      callers := callers[me := Checking(record)];
      CheckedRequest(s0, trace, me, q);
      r, trace := ResumeOrProduce(me, q, record, world, tick + 1, s0, trace);
    }

    /** A receipt that is there is returned as it is; otherwise one is produced. */
    method ResumeOrProduce(me: nat, q: nat, record: Record, world: World, tick: nat, ghost s0: System, ghost before: seq<Step>)
      returns (r: Result<Payload, Failure>, ghost trace: seq<Step>)
      requires LeavesMeAlone(me, world) && At(State(), me) == Checking(record) && State() == Run(Next, s0, before) && Inv(s0)
      requires record.request == q && record.package.Some? && record.manager.Some?
      modifies this
      ensures State() == Run(Next, s0, trace)
      ensures At(State(), me) == Idle
      ensures r.Ok? ==> Issued(State(), q, r.value)
    {
      hide Next, Run, Inv, Issued;
      ghost var s2 := State();
      Await(me, world(tick).others);
      IdleInBook(s0, before, s2, world(tick).others, State(), me);
      NextIsLoaded(State(), me);
      trace := Extend(s0, before, s2, world(tick).others, Step(me, ReadReceipt));
      if HasReceipt(State(), q) {
        var existing := docs.docs[ReceiptId(q)].body.payload;
        callers := callers[me := Returned(q, existing)];
        r, trace := Deliver(me, q, existing, s0, trace);
        return;
      }
      var year := record.manager.value.year;
      Invoices.StartIs(book, me, year);
      book := Invoices.Goto(book, me, Invoices.Reading(year, Invoices.ATTEMPTS));
      callers := callers[me := Allocating(record)];
      r, trace := Produce(me, record, year, world, tick + 1, s0, trace);
      if r.Err? {
        if !r.error.ConflictRaised? {
          trace := Fail(me, q, world, tick + 20, s0, trace);
        }
        return;
      }
      r, trace := Complete(me, q, r.value, world, tick + 20, s0, trace);
    }

    /** The completing commit, and the return of the receipt. */
    method Complete(me: nat, q: nat, payload: Payload, world: World, tick: nat, ghost s0: System, ghost before: seq<Step>)
      returns (r: Result<Payload, Failure>, ghost trace: seq<Step>)
      requires LeavesMeAlone(me, world) && At(State(), me) == Completing(q, payload) && State() == Run(Next, s0, before) && Inv(s0)
      modifies this
      ensures State() == Run(Next, s0, trace)
      ensures At(State(), me) == Idle
      ensures r.Ok? ==> Issued(State(), q, r.value)
    {
      hide Next, Run, Inv, Issued;
      ghost var s1 := State();
      Await(me, world(tick).others);
      NextIsLoaded(State(), me);
      trace := Extend(s0, before, s1, world(tick).others, Step(me, LoadComplete));
      if !HasRecord(State(), q) {
        callers := callers[me := Idle];
        return Err(ErrorRaised), trace;
      }
      var record, etag := docs.docs[RecordId(q)].body.record, docs.docs[RecordId(q)].etag;
      var completed := record.(state := Completed, revision := record.revision + 1);
      callers := callers[me := Committing(record, completed, etag, Returned(q, payload))];
      var ok;
      ok, trace := CommitRecord(me, record, completed, etag, Returned(q, payload), world, tick + 1, s0, trace);
      if !ok {
        return Err(ConflictRaised), trace;
      }
      r, trace := Deliver(me, q, payload, s0, trace);
    }

    method Deliver(me: nat, q: nat, payload: Payload, ghost s0: System, ghost before: seq<Step>)
      returns (r: Result<Payload, Failure>, ghost trace: seq<Step>)
      requires At(State(), me) == Returned(q, payload) && State() == Run(Next, s0, before) && Inv(s0)
      modifies this
      ensures State() == Run(Next, s0, trace)
      ensures At(State(), me) == Idle
      ensures r == Ok(payload) && Issued(State(), q, payload)
    {
      hide Next, Run, Inv;
      ghost var s := State();
      ReturnedIsIssued(s0, before, me);
      NextIsReturn(s, me);
      NoSteps(s);
      trace := Extend(s0, before, s, [], Step(me, Return));
      callers := callers[me := Idle];
      r := Ok(payload);
    }

    /** `execute`: whatever it returns is the stored receipt. */
    method Execute(me: nat, q: nat, world: World) returns (r: Result<Payload, Failure>, ghost trace: seq<Step>)
      requires LeavesMeAlone(me, world) && At(State(), me) == Idle && Inv(State())
      modifies this
      ensures State() == Run(Next, old(State()), trace) && Inv(State())
      ensures At(State(), me) == Idle
      ensures r.Ok? ==> Issued(State(), q, r.value)
    {
      hide Next, Run, Inv, Issued;
      ghost var s := State();
      NextIsCalled(s, me, q, true);
      NoSteps(s);
      trace := Extend(s, [], s, [], Step(me, CoverageRenewal.Execute(q)));
      callers := callers[me := Launching(q)];
      r, trace := ExecuteFrom(me, q, world, 0, s, trace);
      KeptAlong(s, trace);
    }

    /** Back to executing, and `execute` from there. */
    method Relaunch(me: nat, q: nat, record: Record, executing: Record, etag: nat, world: World, ghost s0: System, ghost before: seq<Step>)
      returns (r: Result<Payload, Failure>, ghost trace: seq<Step>)
      requires LeavesMeAlone(me, world) && Inv(s0)
      requires At(State(), me) == Committing(record, executing, etag, Launching(q)) && State() == Run(Next, s0, before)
      modifies this
      ensures State() == Run(Next, s0, trace)
      ensures At(State(), me) == Idle
      ensures r.Ok? ==> Issued(State(), q, r.value)
    {
      hide Next, Run, Inv, Issued;
      var ok;
      ok, trace := CommitRecord(me, record, executing, etag, Launching(q), world, 1, s0, before);
      r := Err(ConflictRaised);
      if ok {
        r, trace := ExecuteFrom(me, q, world, 2, s0, trace);
      }
    }

    /** `retry`: both approvals again, back to executing, and `execute`. */
    method Retry(me: nat, q: nat, world: World) returns (r: Result<Payload, Failure>, ghost trace: seq<Step>)
      requires LeavesMeAlone(me, world) && At(State(), me) == Idle && Inv(State())
      modifies this
      ensures State() == Run(Next, old(State()), trace) && Inv(State())
      ensures At(State(), me) == Idle
      ensures r.Ok? ==> Issued(State(), q, r.value)
    {
      hide Next, Run, Inv, Issued;
      ghost var s := State();
      NextIsCalled(s, me, q, true);
      NoSteps(s);
      trace := Extend(s, [], s, [], Step(me, CoverageRenewal.Retry(q)));
      callers := callers[me := Retrying(q)];
      r, trace := RetryFrom(me, q, world, s, trace);
      KeptAlong(s, trace);
    }

    method RetryFrom(me: nat, q: nat, world: World, ghost s0: System, ghost before: seq<Step>)
      returns (r: Result<Payload, Failure>, ghost trace: seq<Step>)
      requires LeavesMeAlone(me, world) && At(State(), me) == Retrying(q) && State() == Run(Next, s0, before) && Inv(s0)
      modifies this
      ensures State() == Run(Next, s0, trace)
      ensures At(State(), me) == Idle
      ensures r.Ok? ==> Issued(State(), q, r.value)
    {
      hide Next, Run, Inv, Issued, Authorized;
      ghost var s1 := State();
      Await(me, world(0).others);
      NextIsLoaded(State(), me);
      trace := Extend(s0, before, s1, world(0).others, Step(me, LoadRetry));
      if !HasRecord(State(), q) || !docs.docs[RecordId(q)].body.record.state.ExecutionFailed? || !Authorized(docs.docs[RecordId(q)].body.record) {
        callers := callers[me := Idle];
        return Err(NotAuthorized), trace;
      }
      var record, etag := docs.docs[RecordId(q)].body.record, docs.docs[RecordId(q)].etag;
      var executing := record.(state := Executing, revision := record.revision + 1);
      callers := callers[me := Committing(record, executing, etag, Launching(q))];
      r, trace := Relaunch(me, q, record, executing, etag, world, s0, trace);
    }

    /** `authorize_execution`, and `execute` after it. */
    method AuthorizeAndExecute(me: nat, q: nat, world: World) returns (ghost trace: seq<Step>)
      requires LeavesMeAlone(me, world) && At(State(), me) == Idle && Inv(State())
      modifies this
      ensures State() == Run(Next, old(State()), trace) && Inv(State())
      ensures At(State(), me) == Idle
    {
      hide Next, Run, Inv;
      ghost var s := State();
      NextIsCalled(s, me, q, true);
      NoSteps(s);
      trace := Extend(s, [], s, [], Step(me, Authorize(q, true)));
      callers := callers[me := Authorizing(q, true)];
      trace := AuthorizeFrom(me, q, world, s, trace);
      KeptAlong(s, trace);
    }

    method AuthorizeFrom(me: nat, q: nat, world: World, ghost s0: System, ghost before: seq<Step>) returns (ghost trace: seq<Step>)
      requires LeavesMeAlone(me, world) && At(State(), me) == Authorizing(q, true) && State() == Run(Next, s0, before) && Inv(s0)
      modifies this
      ensures State() == Run(Next, s0, trace)
      ensures At(State(), me) == Idle
    {
      hide Next, Run, Inv, Authorized;
      ghost var s1 := State();
      Await(me, world(0).others);
      NextIsAuthorized(State(), me, q);
      trace := Extend(s0, before, s1, world(0).others, Step(me, LoadAuthorize));
      if !HasRecord(State(), q) || !docs.docs[RecordId(q)].body.record.state.ManagerApproved? || !Authorized(docs.docs[RecordId(q)].body.record) {
        callers := callers[me := Idle];
        return;
      }
      var record, etag := docs.docs[RecordId(q)].body.record, docs.docs[RecordId(q)].etag;
      var executing := record.(state := Executing, revision := record.revision + 1);
      callers := callers[me := Committing(record, executing, etag, Launching(q))];
      var r;
      r, trace := Relaunch(me, q, record, executing, etag, world, s0, trace);
    }

    /** `_drain`: over the renewals as they were listed, whatever has become of them since. */
    method Drain(me: nat, listed: seq<Record>, worlds: nat -> World) returns (ghost trace: seq<Step>)
      requires (forall n: nat :: LeavesMeAlone(me, worlds(n))) && At(State(), me) == Idle && Inv(State())
      modifies this
      ensures State() == Run(Next, old(State()), trace) && Inv(State())
      ensures At(State(), me) == Idle
    {
      hide Next, Run, Inv, LeavesMeAlone;
      ghost var s0 := State();
      trace := [];
      NoSteps(s0);
      for i := 0 to |listed|
        invariant State() == Run(Next, s0, trace) && Inv(State()) && At(State(), me) == Idle
      {
        ghost var more: seq<Step> := [];
        ghost var s := State();
        NoSteps(s);
        if listed[i].state.ManagerApproved? {
          more := AuthorizeAndExecute(me, listed[i].request, worlds(i));
        } else if listed[i].state.Executing? {
          var r;
          r, more := Execute(me, listed[i].request, worlds(i));
        }
        RunAppend(Next, s0, trace, more);
        trace := trace + more;
      }
    }

    // -------------------------------------------------------------- download

    /** `download`, for a caller that was found to be the renewal's customer. The record, the
        receipt and the bytes are read one after the other, and the hash is checked again; once
        the bytes can be read nothing refuses them. */
    method Download(me: nat, q: nat, customer: nat, kind: Kind, world: World, ghost s0: System, ghost before: seq<Step>)
      returns (r: Result<Bytes, Failure>, ghost trace: seq<Step>)
      requires LeavesMeAlone(me, world) && Inv(s0)
      requires At(State(), me) == Admitted(q, customer, kind) && State() == Run(Next, s0, before)
      modifies this
      ensures State() == Run(Next, s0, trace) && At(State(), me) == Idle
      ensures r.Ok? <==> world(2).ok
      ensures r.Ok? ==> HasReceipt(State(), q) && Digest(r.value) == DigestOf(ReceiptOf(State(), q), kind)
    {
      hide Next, Run, Inv, Issued, Booked;
      ghost var s1 := State();
      Await(me, world(0).others);
      NextIsLookup(State(), me);
      trace := Extend(s0, before, s1, world(0).others, Step(me, LoadDownload));
      CallerAlong(s0, before, s1, world(0).others, State(), me);
      var completed := docs.docs[RecordId(q)].body.record.state.Completed?;
      callers := callers[me := LookingUp(q, customer, kind, completed)];
      r, trace := FindExecution(me, q, customer, kind, completed, world, s0, trace);
    }

    /** `get_execution`, and the bytes it names. */
    method FindExecution(me: nat, q: nat, customer: nat, kind: Kind, completed: bool, world: World, ghost s0: System, ghost before: seq<Step>)
      returns (r: Result<Bytes, Failure>, ghost trace: seq<Step>)
      requires LeavesMeAlone(me, world) && Inv(s0)
      requires At(State(), me) == LookingUp(q, customer, kind, completed) && State() == Run(Next, s0, before)
      modifies this
      ensures State() == Run(Next, s0, trace) && At(State(), me) == Idle
      ensures r.Ok? <==> world(2).ok
      ensures r.Ok? ==> HasReceipt(State(), q) && Digest(r.value) == DigestOf(ReceiptOf(State(), q), kind)
    {
      hide Next, Run, Inv, Issued, Booked;
      ghost var s2 := State();
      Await(me, world(1).others);
      NextIsLookup(State(), me);
      ghost var s3 := State();
      trace := Extend(s0, before, s2, world(1).others, Step(me, ReadIssued));
      if !HasReceipt(State(), q) || !completed {
        callers := callers[me := Idle];
        r := Err(NotAuthorized);
      } else {
        var execution := docs.docs[ReceiptId(q)].body.payload;
        callers := callers[me := Fetching(q, customer, kind, execution)];
        r, trace := Fetch(me, q, customer, kind, execution, world, s0, trace);
      }
      CallerAlong(s0, before, s2, world(1).others, s3, me);
    }

    method Fetch(me: nat, q: nat, customer: nat, kind: Kind, execution: Payload, world: World, ghost s0: System, ghost before: seq<Step>)
      returns (r: Result<Bytes, Failure>, ghost trace: seq<Step>)
      requires LeavesMeAlone(me, world) && Inv(s0)
      requires At(State(), me) == Fetching(q, customer, kind, execution) && State() == Run(Next, s0, before)
      modifies this
      ensures State() == Run(Next, s0, trace) && At(State(), me) == Idle
      ensures r.Ok? <==> world(2).ok
      ensures r.Ok? ==> HasReceipt(State(), q) && Digest(r.value) == DigestOf(ReceiptOf(State(), q), kind)
    {
      hide Next, Run, Inv;
      ghost var s1 := State();
      Await(me, world(2).others);
      NextIsFetched(State(), me);
      CallerAlong(s0, before, s1, world(2).others, State(), me);
      if !world(2).ok {
        trace := Extend(s0, before, s1, world(2).others, Step(me, Crash));
        book, callers := Invoices.Next(book, Invoices.Step(me, Invoices.Crash)), callers[me := Idle];
        return Err(ErrorRaised), trace;
      }
      ghost var held := State();
      trace := Extend(s0, before, s1, world(2).others, Step(me, ReadBlob));
      var name := BlobId(q, kind, execution.invoice);
      var sound := name in blobs && Digest(blobs[name]) == DigestOf(execution, kind);
      callers := callers[me := if sound then Served(q, customer, kind, blobs[name]) else Corrupted(q, customer, kind)];
      ghost var s2 := State();
      NoSteps(s2);
      NextIsGivenBack(s2, me);
      trace := Extend(s0, trace, s2, [], Step(me, Return));
      callers := callers[me := Idle];
      r := if sound then Ok(blobs[name]) else Err(NotAuthorized);
      StoredAsIssued(held, me);
    }
  }

  lemma NextIsGivenBack(s: System, me: nat)
    requires At(s, me).Served? || At(s, me).Corrupted?
    ensures Next(s, Step(me, Return)) == Goto(s, me, Idle)
  {
  }

  lemma NextIsLookup(s: System, me: nat)
    ensures At(s, me).Admitted? && HasRecord(s, At(s, me).q) ==>
      Next(s, Step(me, LoadDownload))
        == Goto(s, me, LookingUp(At(s, me).q, At(s, me).customer, At(s, me).kind, Rec(s, At(s, me).q).state.Completed?))
    ensures At(s, me).LookingUp? ==>
      var p := At(s, me);
      Next(s, Step(me, ReadIssued))
        == Goto(s, me, if HasReceipt(s, p.q) && p.completed then Fetching(p.q, p.customer, p.kind, ReceiptOf(s, p.q)) else Idle)
  {
  }

  lemma NextIsFetched(s: System, me: nat)
    ensures At(s, me).Fetching? ==> Next(s, Step(me, ReadBlob)) == NextFetch(s, me, At(s, me))
    ensures Next(s, Step(me, Crash)) == Booked(Goto(s, me, Idle), me, Invoices.Crash)
  {
    hide NextFetch, Booked;
  }

  /** What the position of a caller says wherever it waits. */
  lemma CallerAlong(s0: System, before: seq<Step>, s1: System, others: seq<Step>, s2: System, me: nat)
    requires Inv(s0) && s1 == Run(Next, s0, before) && s2 == Run(Next, s1, others)
    ensures Inv(s2)
    ensures At(s2, me).Admitted? || At(s2, me).LookingUp? ==> Finished(s2, At(s2, me).q) && HasReceipt(s2, At(s2, me).q)
    ensures At(s2, me).LookingUp? ==> At(s2, me).completed
    ensures At(s2, me).Fetching? ==> Issued(s2, At(s2, me).q, At(s2, me).payload)
  {
    hide Inv;
    KeptAlong(s0, before);
    KeptAlong(s1, others);
    CallerOk(s2, me);
    if At(s2, me).Admitted? || At(s2, me).LookingUp? {
      FinishedHasReceipt(s2, At(s2, me).q);
    }
  }

  lemma FinishedHasReceipt(s: System, q: nat)
    requires Inv(s) && Finished(s, q)
    ensures HasReceipt(s, q)
  {
    hide Filed, Numbers, BuiltOk, DecisionsBuilt, Callers, Carriers, Finishers, Drivers, Bookkeeping;
  }

  lemma StoredAsIssued(s: System, me: nat)
    requires Inv(s) && At(s, me).Fetching?
    ensures var p := At(s, me); var name := BlobId(p.q, p.kind, p.payload.invoice);
      name in s.blobs && Digest(s.blobs[name]) == DigestOf(p.payload, p.kind)
  {
    hide Inv;
    CallerOk(s, me);
    FetchKeeps(s, me, At(s, me));
  }

  lemma NextIsAuthorized(s: System, me: nat, q: nat)
    requires At(s, me) == Authorizing(q, true)
    ensures Next(s, Step(me, LoadAuthorize)) ==
      if !HasRecord(s, q) || !Rec(s, q).state.ManagerApproved? || !Authorized(Rec(s, q)) then Goto(s, me, Idle)
      else Goto(s, me, Committing(Rec(s, q), Rec(s, q).(state := Executing, revision := Rec(s, q).revision + 1), TagOf(s, q), Launching(q)))
  {
    hide Authorized;
    assert CanTransition(ManagerApproved, Executing);
  }

  lemma AuthorizedHas(r: Record)
    requires Authorized(r)
    ensures r.package.Some? && r.manager.Some?
  {
  }

  lemma KeptAlong(s: System, steps: seq<Step>)
    requires Inv(s)
    ensures Inv(Run(Next, s, steps))
  {
    hide Inv;
    HistoryOnlyGrows(s, steps);
  }

  lemma ReturnedIsIssued(s: System, steps: seq<Step>, me: nat)
    requires Inv(s) && At(Run(Next, s, steps), me).Returned?
    ensures var t := Run(Next, s, steps); Issued(t, At(t, me).q, At(t, me).payload)
  {
    hide Inv;
    HistoryOnlyGrows(s, steps);
    CallerOk(Run(Next, s, steps), me);
  }

  lemma CheckedRequest(s: System, steps: seq<Step>, me: nat, q: nat)
    requires Inv(s) && HasRecord(Run(Next, s, steps), q)
    ensures Rec(Run(Next, s, steps), q).request == q
  {
    hide Inv;
    HistoryOnlyGrows(s, steps);
    RecordFacts(Run(Next, s, steps), q);
  }

  /** Before its first step in the invoice book a caller is idle there. */
  lemma IdleInBook(s: System, steps: seq<Step>, t: System, others: seq<Step>, u: System, me: nat)
    requires Inv(s) && t == Run(Next, s, steps) && u == Run(Next, t, others) && !At(u, me).Allocating?
    ensures Invoices.At(u.book, me).Idle?
  {
    hide Inv, Next;
    HistoryOnlyGrows(s, steps);
    HistoryOnlyGrows(t, others);
    BookkeepingOf(u, me);
  }

  lemma BookkeepingOf(s: System, me: nat)
    requires Inv(s) && !At(s, me).Allocating?
    ensures Invoices.At(s.book, me).Idle?
  {
  }
}
