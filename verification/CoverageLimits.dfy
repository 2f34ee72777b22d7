/** Where the renewal machine does less than it seems to promise: runs from the start that show
    it, and the exact conditions. */
module CoverageLimits {
  import opened Results
  import opened CoverageRecords
  import opened CoverageRenewal
  import opened CoverageSafety
  import opened CoverageHistory
  import opened CoverageRuns
  import opened DocumentStore
  import opened Traces
  import Desk = CoverageController
  import Execution = CoverageExecution
  import Invoices = InvoiceAllocator

  // ---------------------------------------------------------------- a number can be lost

  /** The counter of a year is created by the first round of an allocation. */
  lemma Opens(s: System, u: System, before: seq<Step>, w: nat, year: int, tries: nat) returns (t: System, steps: seq<Step>)
    requires u == Run(Next, s, before) && Inv(u) && At(u, w).Allocating?
    requires Invoices.At(u.book, w) == Invoices.Reading(year, tries) && tries > 1 && Invoices.CounterId(year) !in u.book.book.docs
    ensures t == Run(Next, s, steps) && Inv(t) && Alone(u, t, w) && t == u.(book := t.book)
    ensures Invoices.At(t.book, w) == Invoices.Reading(year, tries - 1) && Invoices.HasCounter(t.book.book, year) && Invoices.Counter(t.book.book, year) == 0
    ensures forall m: Invoices.Invoice :: Invoices.Reserved(t.book.book, m) <==> Invoices.Reserved(u.book.book, m)
  {
    hide Inv, Run, Next, Invoices.Next, Invoices.Reserved;
    var b := Invoices.OpensFrom(u.book, w, year, tries);
    Execution.NextIsBooked(u, w, Invoices.Read);
    Then(s, u, before, Step(w, AllocateStep(Invoices.Read)));
    var x := Next(u, Step(w, AllocateStep(Invoices.Read)));
    Execution.NextIsBooked(x, w, Invoices.Open(true));
    Then(s, x, before + [Step(w, AllocateStep(Invoices.Read))], Step(w, AllocateStep(Invoices.Open(true))));
    steps := before + [Step(w, AllocateStep(Invoices.Read))] + [Step(w, AllocateStep(Invoices.Open(true)))];
    t := u.(book := b);
  }

  /** From nothing to an execution in the allocation, in a year whose counter was just created.
      The other caller is about to execute the same renewal. */
  lemma ReachAllocating(config: Config, w: nat, v: nat, q: nat, year: int) returns (t: System, steps: seq<Step>)
    requires !SamePerson(config.operations, config.manager) && w != v
    ensures t == After(config, steps) && Inv(t) && t.claims == map[] && !HasReceipt(t, q)
    ensures HasRecord(t, q) && Rec(t, q).state.Executing? && Rec(t, q).manager.Some? && Rec(t, q).manager.value.year == year
    ensures At(t, w) == Allocating(Rec(t, q)) && At(t, v) == Launching(q) && Rec(t, q).request == q
    ensures Invoices.At(t.book, w) == Invoices.Reading(year, Invoices.ATTEMPTS - 1)
    ensures Invoices.HasCounter(t.book.book, year) && Invoices.Counter(t.book.book, year) == 0
    ensures forall m: Invoices.Invoice :: !Invoices.Reserved(t.book.book, m)
  {
    hide Inv, Run, Next, Invoices.Reserved;
    var s := Initial(config);
    t, steps := ReachLaunching(config, w, q, year);
    UntouchedFacts(t, w, v, q, year);
    LaunchedFacts(t, q);
    Execution.NextIsCalled(t, v, q, true);
    Then(s, t, steps, Step(v, Act.Execute(q)));
    steps, t := steps + [Step(v, Act.Execute(q))], Goto(t, v, Launching(q));
    var u := t;
    t, steps := Enters(s, u, steps, w, q);
    AloneFacts(u, t, w, v);
    u := t;
    t, steps := Opens(s, u, steps, w, year, Invoices.ATTEMPTS);
    AloneFacts(u, t, w, v);
  }

  lemma UntouchedFacts(s: System, w: nat, v: nat, q: nat, year: int)
    requires Untouched(s, w) && v != w
    ensures At(s, v).Idle? && !HasReceipt(s, q) && s.claims == map[] && Invoices.CounterId(year) !in s.book.book.docs
    ensures forall m: Invoices.Invoice :: !Invoices.Reserved(s.book.book, m)
  {
  }

  lemma AloneFacts(s: System, t: System, w: nat, v: nat)
    requires Alone(s, t, w) && v != w
    ensures t.config == s.config && At(t, v) == At(s, v) && Invoices.At(t.book, v) == Invoices.At(s.book, v)
  {
  }

  /** The executor's promise never to allocate a second number for a request is stronger than what
      it does: here rendering raises after the first number was taken, the renewal is marked
      failed, and its retry takes the next. */
  lemma FailureLosesANumber(config: Config, w: nat, q: nat, year: int) returns (t: System, steps: seq<Step>)
    requires !SamePerson(config.operations, config.manager)
    ensures t == After(config, steps) && !HasReceipt(t, q)
    ensures t.claims == map[Invoices.Invoice(year, 1) := q, Invoices.Invoice(year, 2) := q]
    ensures At(t, w).Rendering? && At(t, w).invoice == Invoices.Invoice(year, 2)
  {
    hide Inv, Run, Next, Beside, Alone, Grown;
    var s := Initial(config);
    t, steps := ReachAllocating(config, w, w + 1, q, year);
    var u := t;
    t, steps := Takes(s, u, steps, w, year, Invoices.ATTEMPTS - 1);
    ReceiptsByDocs(u, t, q);
    RenderFails(t, w);
    Then(s, t, steps, Step(w, Render(None, None)));
    steps, t := steps + [Step(w, Render(None, None))], Goto(t, w, Failing(q));
    u := t;
    t, steps := MarksFailed(s, u, steps, w, q);
    BesideStores(u, t, w, q);
    u := t;
    t, steps := Retries(s, u, steps, w, q);
    BesideStores(u, t, w, q);
    t, steps := Enters(s, t, steps, w, q);
    u := t;
    t, steps := Takes(s, u, steps, w, year, Invoices.ATTEMPTS);
    ReceiptsByDocs(u, t, q);
  }

  lemma RenderFails(s: System, w: nat)
    requires At(s, w).Rendering?
    ensures Next(s, Step(w, Render(None, None))) == Goto(s, w, Failing(At(s, w).record.request))
  {
  }

  lemma ReceiptsByDocs(s: System, t: System, q: nat)
    requires t.docs == s.docs
    ensures HasReceipt(t, q) <==> HasReceipt(s, q)
    ensures HasReceipt(s, q) ==> ReceiptOf(t, q) == ReceiptOf(s, q)
    ensures HasRecord(t, q) <==> HasRecord(s, q)
    ensures HasRecord(s, q) ==> Rec(t, q) == Rec(s, q)
  {
  }

  lemma BesideStores(s: System, t: System, w: nat, q: nat)
    requires Beside(s, t, w)
    ensures t.book == s.book && t.claims == s.claims && t.config == s.config && (HasReceipt(t, q) <==> HasReceipt(s, q))
  {
  }

  /** A number that was not claimed for the renewal before. */
  ghost predicate FurtherNumber(s: System, t: System, q: nat) {
    exists n :: n in t.claims && t.claims[n] == q && n !in s.claims
  }

  /** Not even a stored receipt stops it: a call that had passed its check before takes another
      number afterwards. */
  lemma ReceiptDoesNotStopAnAllocation(config: Config, w: nat, v: nat, q: nat, year: int) returns (first: seq<Step>, second: seq<Step>)
    requires !SamePerson(config.operations, config.manager) && w != v
    ensures HasReceipt(After(config, first), q) && FurtherNumber(After(config, first), After(config, first + second), q)
  {
    hide Inv, Run, Next, Alone, Grown;
    var s := Initial(config);
    var u, t;
    u, first := ReachAllocating(config, w, v, q, year);
    t, first := Enters(s, u, first, v, q);
    AloneFacts(u, t, v, w);
    u := t;
    t, first := Takes(s, u, first, w, year, Invoices.ATTEMPTS - 1);
    AloneFacts(u, t, w, v);
    ReceiptsByDocs(u, t, q);
    u := t;
    t, first := Issues(s, u, first, w, q, true);
    AloneFacts(u, t, w, v);
    Execution.NoSteps(t);
    u, second := Takes(t, t, [], v, year, Invoices.ATTEMPTS);
    RunAppend(Next, s, first, second);
    assert u.claims[Invoices.Invoice(year, 2)] == q;
  }

  // ---------------------------------------------------------------- exactly when another number can be claimed

  predicate AllocatesFor(s: System, w: nat, q: nat) {
    At(s, w).Allocating? && At(s, w).record.request == q
  }

  /** A call that is past its check and can still be granted a number. */
  ghost predicate Hopeful(s: System, q: nat) {
    exists w: nat :: AllocatesFor(s, w, q) && Invoices.Prospects(s.book.book, Invoices.At(s.book, w))
  }

  ghost predicate Closed(s: System, q: nat, year: int) {
    && HasRecord(s, q) && Launched(Rec(s, q).state) && Rec(s, q).manager.Some? && Rec(s, q).manager.value.year == year
    && Invoices.HasCounter(s.book.book, year)
    && (HasReceipt(s, q) || Invoices.Blocked(s.book.book, year)) && !Hopeful(s, q)
  }

  lemma ClosedFacts(s: System, q: nat, year: int, w: nat)
    requires Closed(s, q, year) && Inv(s)
    ensures Launched(Rec(s, q).state) && Rec(s, q).manager.Some? && Rec(s, q).manager.value.year == year && Invoices.HasCounter(s.book.book, year)
    ensures HasReceipt(s, q) || Invoices.Blocked(s.book.book, year)
    ensures AllocatesFor(s, w, q) ==> !Invoices.Prospects(s.book.book, Invoices.At(s.book, w)) && Invoices.Within(Invoices.At(s.book, w), year)
  {
    hide Filed, Receipts, Numbers, DecisionsBuilt, Carriers, Finishers, Drivers, BuiltOk, Invoices.Prospects, Invoices.Within, RecordOk;
    if AllocatesFor(s, w, q) {
      assert w in s.callers && Frozen(s, s.callers[w].record);
      assert Matches(At(s, w), Invoices.At(s.book, w));
    }
  }

  lemma BookOf(s: System)
    requires Inv(s)
    ensures Invoices.Inv(s.book)
  {
  }

  ghost predicate StillRunning(s: System, t: System, q: nat, year: int) {
    && HasRecord(t, q) && Launched(Rec(t, q).state) && Rec(t, q).manager.Some? && Rec(t, q).manager.value.year == year
    && (HasReceipt(s, q) ==> HasReceipt(t, q))
  }

  /** What the closed renewal keeps of its record, its receipt and its year. */
  lemma ClosedLater(s: System, step: Step, q: nat, year: int)
    requires Inv(s) && Closed(s, q, year)
    ensures Inv(Next(s, step)) && StillRunning(s, Next(s, step), q, year)
  {
    hide Inv, Next, Hopeful, RecordOk;
    NextKeeps(s, step);
    RecordFacts(s, q);
  }

  /** A step that leaves the book alone and brings no one into the allocation. */
  lemma AsideKeepsClosed(s: System, t: System, w: nat, q: nat, year: int)
    requires Inv(s) && Closed(s, q, year) && Aside(s, t, w) && StillRunning(s, t, q, year)
    ensures Closed(t, q, year) && t.claims == s.claims
  {
    hide Inv, Invoices.Prospects;
    forall v: nat | AllocatesFor(t, v, q) ensures !Invoices.Prospects(t.book.book, Invoices.At(t.book, v)) {
      assert At(t, v) == At(s, v) && AllocatesFor(s, v, q);
    }
  }

  /** A step in the invoice book. */
  lemma BookKeepsClosed(s: System, t: System, act: Invoices.Act, w: nat, q: nat, year: int)
    requires Inv(s) && Closed(s, q, year) && t.book == Invoices.Next(s.book, Invoices.Step(w, act)) && StillRunning(s, t, q, year)
    requires forall v: nat :: v != w ==> At(t, v) == At(s, v)
    requires AllocatesFor(t, w, q) ==>
      || (AllocatesFor(s, w, q) && (act.Read? || act.Open? || act.Take?))
      || !Invoices.Prospects(t.book.book, Invoices.At(t.book, w))
    ensures Closed(t, q, year)
  {
    hide Inv, Invoices.Prospects, Invoices.Within, Invoices.Next, Invoices.Blocked, Invoices.Inv;
    BookOf(s);
    ClosedFacts(s, q, year, w);
    forall v: nat | AllocatesFor(t, v, q) ensures !Invoices.Prospects(t.book.book, Invoices.At(t.book, v)) {
      ClosedFacts(s, q, year, v);
      if v != w || ((act.Read? || act.Open? || act.Take?) && AllocatesFor(s, w, q)) {
        Invoices.ProspectsFade(s.book, Invoices.Step(w, act), v, year);
      }
    }
    Invoices.NextKeeps(s.book, Invoices.Step(w, act));
    Invoices.CountersLater(s.book, t.book, year);
    if Invoices.Blocked(s.book.book, year) {
      Invoices.StepKeepsBlocked(s.book, Invoices.Step(w, act), year);
    }
  }

  lemma ReserveKeepsClosed(s: System, w: nat, invoice: Invoices.Invoice, acked: bool, q: nat, year: int)
    requires Inv(s) && Closed(s, q, year) && At(s, w).Idle?
    ensures Closed(Booked(Booked(s, w, Invoices.Reserve(invoice, acked)), w, Invoices.Collect), q, year)
  {
    hide Inv, Invoices.Prospects, Invoices.Within, Invoices.Next, Invoices.Blocked, Invoices.Inv;
    var first, second := Invoices.Step(w, Invoices.Reserve(invoice, acked)), Invoices.Step(w, Invoices.Collect);
    var b := Invoices.Next(s.book, first);
    BookOf(s);
    ClosedFacts(s, q, year, w);
    Invoices.NextKeeps(s.book, first);
    Invoices.NextKeeps(b, second);
    Invoices.CountersLater(s.book, b, year);
    Invoices.CountersLater(b, Invoices.Next(b, second), year);
    var t := Booked(Booked(s, w, Invoices.Reserve(invoice, acked)), w, Invoices.Collect);
    forall v: nat | AllocatesFor(t, v, q) ensures !Invoices.Prospects(t.book.book, Invoices.At(t.book, v)) {
      assert AllocatesFor(s, v, q) && v != w;
      ClosedFacts(s, q, year, v);
      Invoices.ProspectsFade(s.book, first, v, year);
      Invoices.ProspectsFade(b, second, v, year);
    }
    if Invoices.Blocked(s.book.book, year) {
      Invoices.StepKeepsBlocked(s.book, first, year);
      Invoices.StepKeepsBlocked(b, second, year);
    }
  }

  /** No number is claimed for the closed renewal. */
  predicate ClaimsSame(s: System, t: System, q: nat) {
    forall n :: n in t.claims && t.claims[n] == q ==> n in s.claims && s.claims[n] == q
  }

  lemma CheckKeepsClosed(s: System, w: nat, q: nat, year: int)
    requires Inv(s) && Closed(s, q, year) && At(s, w).Checking? && StillRunning(s, NextReceipt(s, w, At(s, w)), q, year)
    ensures var t := NextReceipt(s, w, At(s, w)); Closed(t, q, year) && ClaimsSame(s, t, q)
  {
    hide Inv, Closed, Invoices.Prospects, Invoices.Next;
    var r := At(s, w).record;
    var t := NextReceipt(s, w, At(s, w));
    if HasReceipt(s, r.request) || r.manager.None? {
      AsideKeepsClosed(s, t, w, q, year);
    } else {
      BookIsIdle(s, w);
      Invoices.StartIs(s.book, w, r.manager.value.year);
      if r.request == q {
        CheckedYear(s, w, q, year);
        ClosedFacts(s, q, year, w);
        NoProspects(t.book.book, year, Invoices.ATTEMPTS);
      }
      BookKeepsClosed(s, t, Invoices.Start(r.manager.value.year), w, q, year);
    }
  }

  lemma NoProspects(p: Invoices.Book, year: int, tries: nat)
    requires Invoices.Blocked(p, year)
    ensures !Invoices.Prospects(p, Invoices.Reading(year, tries))
  {
  }

  lemma CheckedYear(s: System, w: nat, q: nat, year: int)
    requires Inv(s) && Closed(s, q, year) && At(s, w).Checking? && At(s, w).record.request == q
    ensures At(s, w).record.manager.Some? && At(s, w).record.manager.value.year == year
  {
    hide Inv, Hopeful, RecordOk;
    CallerOk(s, w);
  }

  lemma CollectKeepsClosed(s: System, w: nat, q: nat, year: int)
    requires Inv(s) && Closed(s, q, year) && At(s, w).Allocating? && StillRunning(s, NextCollect(s, w, At(s, w)), q, year)
    ensures var t := NextCollect(s, w, At(s, w)); Closed(t, q, year) && ClaimsSame(s, t, q)
  {
    hide Inv, Closed, Invoices.Next;
    var held := Invoices.At(s.book, w);
    ClosedFacts(s, q, year, w);
    if held.Done? || held.GaveUp? {
      BookKeepsClosed(s, NextCollect(s, w, At(s, w)), Invoices.Collect, w, q, year);
    }
  }

  lemma BookStepKeepsClosed(s: System, step: Step, q: nat, year: int)
    requires Inv(s) && Closed(s, q, year) && StillRunning(s, Next(s, step), q, year)
    requires step.act.ReadReceipt? || step.act.AllocateStep? || step.act.Collect? || step.act.Reserve? || step.act.Crash?
    ensures Closed(Next(s, step), q, year) && ClaimsSame(s, Next(s, step), q)
  {
    hide Inv, Closed, Invoices.Next, NextReceipt, NextCollect, Invoices.Prospects, StillRunning;
    var w := step.caller;
    match step.act
    case ReadReceipt => if At(s, w).Checking? { CheckKeepsClosed(s, w, q, year); }
    case AllocateStep(act) =>
      if At(s, w).Allocating? && (act.Read? || act.Open? || act.Take?) {
        BookKeepsClosed(s, Next(s, step), act, w, q, year);
      }
    case Collect => if At(s, w).Allocating? { CollectKeepsClosed(s, w, q, year); }
    case Reserve(invoice, acked) => if At(s, w).Idle? { ReserveKeepsClosed(s, w, invoice, acked, q, year); }
    case Crash => BookKeepsClosed(s, Next(s, step), Invoices.Crash, w, q, year);
  }

  lemma StepKeepsClosed(s: System, step: Step, q: nat, year: int)
    requires Inv(s) && Closed(s, q, year)
    ensures Inv(Next(s, step)) && Closed(Next(s, step), q, year) && ClaimsSame(s, Next(s, step), q)
  {
    hide Inv, Next, Closed, PositionOk, StillRunning;
    ClosedLater(s, step, q, year);
    if step.act.ReadReceipt? || step.act.AllocateStep? || step.act.Collect? || step.act.Reserve? || step.act.Crash? {
      BookStepKeepsClosed(s, step, q, year);
    } else {
      CallerOk(s, step.caller);
      if ControllerStep(step.act) {
        ControllerAllocatesNothing(s, step);
      } else if step.act.Commit? {
        CommitAllocatesNothing(s, step.caller, step.act.acked);
      } else {
        ExecutorAllocatesNothing(s, step);
      }
      AsideKeepsClosed(s, Next(s, step), step.caller, q, year);
    }
  }

  lemma {:induction false} ClosedStays(s: System, steps: seq<Step>, q: nat, year: int)
    requires Inv(s) && Closed(s, q, year)
    ensures var t := Run(Next, s, steps); Inv(t) && Closed(t, q, year) && ClaimsSame(s, t, q)
  {
    hide Inv, Next, Closed;
    if steps != [] {
      ClosedStays(s, steps[..|steps| - 1], q, year);
      StepKeepsClosed(Run(Next, s, steps[..|steps| - 1]), steps[|steps| - 1], q, year);
    }
  }

  lemma TookIt(s: System, t: System, year: int, q: nat)
    requires Invoices.HasCounter(s.book.book, year)
    requires var n := Invoices.Invoice(year, Invoices.Counter(s.book.book, year) + 1); t.claims == s.claims[n := q] && n !in s.claims
    ensures FurtherNumber(s, t, q)
  {
    assert t.claims[Invoices.Invoice(year, Invoices.Counter(s.book.book, year) + 1)] == q;
  }

  /** A call that reads next, or holds its number. */
  lemma GetsIt(s: System, u: System, before: seq<Step>, w: nat, q: nat) returns (steps: seq<Step>)
    requires u == Run(Next, s, before) && Inv(u) && u.claims == s.claims && AllocatesFor(u, w, q)
    requires var p := Invoices.At(u.book, w); p.Done? || (p.Reading? && Invoices.Free(u.book.book, p.year))
    ensures FurtherNumber(s, Run(Next, s, steps), q)
  {
    hide Inv, Run, Next, Invoices.Next, Alone;
    var p := Invoices.At(u.book, w);
    if p.Done? {
      DoneIsNew(u, w);
      CollectsIt(u, w);
      Then(s, u, before, Step(w, Collect));
      steps := before + [Step(w, Collect)];
      assert Next(u, Step(w, Collect)).claims[p.invoice] == q;
    } else {
      var t;
      t, steps := Takes(s, u, before, w, p.year, p.tries);
      TookIt(u, t, p.year, q);
    }
  }

  lemma HopefulGets(s: System, w: nat, q: nat) returns (steps: seq<Step>)
    requires Inv(s) && AllocatesFor(s, w, q) && Invoices.Prospects(s.book.book, Invoices.At(s.book, w))
    ensures FurtherNumber(s, Run(Next, s, steps), q)
  {
    hide Inv, Run, Next, Invoices.Next, Invoices.Inv;
    Execution.NoSteps(s);
    var p := Invoices.At(s.book, w);
    if p.Opening? || p.Taking? {
      var act := if p.Opening? then Invoices.Open(true) else Invoices.Take(true);
      BookOf(s);
      Invoices.RoundGoesOn(s.book, w);
      Execution.NextIsBooked(s, w, act);
      Then(s, s, [], Step(w, AllocateStep(act)));
      steps := GetsIt(s, Next(s, Step(w, AllocateStep(act))), [] + [Step(w, AllocateStep(act))], w, q);
    } else {
      steps := GetsIt(s, s, [], w, q);
    }
  }

  /** Without a receipt, a caller that is not under way executes or retries. */
  lemma AnotherExecutes(s: System, q: nat) returns (steps: seq<Step>)
    requires Inv(s) && HasRecord(s, q) && Launched(Rec(s, q).state) && !HasReceipt(s, q)
    requires Rec(s, q).manager.Some? && Invoices.Free(s.book.book, Rec(s, q).manager.value.year)
    ensures FurtherNumber(s, Run(Next, s, steps), q)
  {
    hide Inv, Run, Next, Invoices.Next, Invoices.Free, Alone;
    var w := Invoices.Newcomer(s.callers);
    var year := Rec(s, q).manager.value.year;
    NotCompleted(s, q);
    LaunchedFacts(s, q);
    Execution.NoSteps(s);
    Execution.NextIsCalled(s, w, q, true);
    var t;
    if Rec(s, q).state.ExecutionFailed? {
      t, steps := Retries(s, s, [], w, q);
      BesideStores(s, t, w, q);
    } else {
      Then(s, s, [], Step(w, Act.Execute(q)));
      steps, t := [] + [Step(w, Act.Execute(q))], Goto(s, w, Launching(q));
    }
    t, steps := Enters(s, t, steps, w, q);
    steps := GetsIt(s, t, steps, w, q);
  }

  lemma NotCompleted(s: System, q: nat)
    requires Inv(s) && HasRecord(s, q) && Launched(Rec(s, q).state) && !HasReceipt(s, q)
    ensures Rec(s, q).state.Executing? || Rec(s, q).state.ExecutionFailed?
  {
  }

  /** Whatever anyone does from here on, another number can be claimed for a launched renewal if
      and only if a call under way can still be granted one, or there is no receipt yet and the
      year has a number left. */
  lemma AnotherNumberExactlyWhen(s: System, q: nat)
    requires Inv(s) && HasRecord(s, q) && Launched(Rec(s, q).state) && Rec(s, q).manager.Some?
    requires Invoices.HasCounter(s.book.book, Rec(s, q).manager.value.year)
    ensures (exists steps :: FurtherNumber(s, Run(Next, s, steps), q))
       <==> Hopeful(s, q) || (!HasReceipt(s, q) && Invoices.Free(s.book.book, Rec(s, q).manager.value.year))
  {
    hide Inv, Run, Next, Invoices.Prospects;
    var year := Rec(s, q).manager.value.year;
    if Hopeful(s, q) {
      var w: nat :| AllocatesFor(s, w, q) && Invoices.Prospects(s.book.book, Invoices.At(s.book, w));
      var steps := HopefulGets(s, w, q);
    } else if !HasReceipt(s, q) && Invoices.Free(s.book.book, year) {
      var steps := AnotherExecutes(s, q);
    } else {
      forall steps ensures !FurtherNumber(s, Run(Next, s, steps), q) {
        ClosedStays(s, steps, q, year);
      }
    }
  }

  // ---------------------------------------------------------------- exactly when a renewal can still be completed

  /** A call that can complete the renewal: it has just issued the receipt, or is about to commit
      on the record as it is. */
  predicate CanFinish(s: System, w: nat, q: nat) {
    var p := At(s, w);
    Finishes(p) == Some(q) && (p.Completing? || (HasRecord(s, q) && TagOf(s, q) == p.etag))
  }

  ghost predicate Finishable(s: System, q: nat) {
    exists w: nat :: CanFinish(s, w, q)
  }

  /** A receipt, no completion, and no one left to complete. */
  ghost predicate Parked(s: System, q: nat) {
    HasRecord(s, q) && HasReceipt(s, q) && !Finished(s, q) && !Finishable(s, q)
  }

  predicate WritesDocuments(a: Act) {
    a.Start? || a.Commit? || a.Issue?
  }

  /** Nothing is written, and the caller does not come to complete anything it was not completing. */
  predicate Idly(s: System, t: System, w: nat) {
    && t.docs == s.docs
    && (Finishes(At(t, w)).Some? ==> Finishes(At(s, w)) == Finishes(At(t, w)))
    && (Finishes(At(t, w)).Some? && At(s, w).Committing? ==> At(t, w) == At(s, w))
  }

  lemma MovesIdly(s: System, w: nat, p: Position)
    ensures forall q: nat, target: RenewalState, done: Position :: !done.Returned? ==> Idly(s, Moving(s, w, q, target, done), w)
    ensures p.Drafting? ==> Idly(s, NextDraft(s, w, p), w)
  {
    hide CanTransition;
  }

  lemma DecidesIdly(s: System, w: nat, p: Position, now: int, year: int, id: nat)
    ensures p.OperationsDeciding? ==> Idly(s, NextOperations(s, w, p, now, id), w)
    ensures p.ManagerDeciding? ==> Idly(s, NextManager(s, w, p, now, year, id), w)
  {
    hide CanTransition, SamePerson, Reasoned;
  }

  lemma ReviewsIdly(s: System, w: nat, q: nat, actor: ObjectId, command: Command, byManager: bool)
    ensures Idly(s, NextReview(s, w, q, actor, command, byManager), w)
  {
    hide Recorded, Restates;
  }

  lemma ControllerIdles(s: System, step: Step)
    requires ControllerStep(step.act) && !step.act.Start?
    ensures Idly(s, Next(s, step), step.caller)
  {
    hide Moving, NextDraft, NextReview, NextOperations, NextManager, Authorized;
    var w, p := step.caller, At(s, step.caller);
    MovesIdly(s, w, p);
    if step.act.LoadOperations? {
      DecidesIdly(s, w, p, step.act.now, 0, step.act.id);
    } else if step.act.LoadManager? {
      DecidesIdly(s, w, p, step.act.now, step.act.year, step.act.id);
    } else if step.act.Review? {
      ReviewsIdly(s, w, step.act.q, step.act.actor, step.act.command, step.act.byManager);
    }
  }

  lemma ProducerIdles(s: System, step: Step)
    requires Produces(step.act) && !step.act.Issue?
    ensures Idly(s, Next(s, step), step.caller)
  {
    hide Authorized, DigestOf;
  }

  lemma ExecutorIdles(s: System, step: Step)
    requires !ControllerStep(step.act) && !Produces(step.act) && !WritesDocuments(step.act)
    ensures Idly(s, Next(s, step), step.caller)
  {
    hide Invoices.Next, Authorized;
  }

  lemma StepsIdly(s: System, step: Step)
    requires !WritesDocuments(step.act)
    ensures Idly(s, Next(s, step), step.caller)
  {
    hide Next, Idly;
    if ControllerStep(step.act) {
      ControllerIdles(s, step);
    } else if Produces(step.act) {
      ProducerIdles(s, step);
    } else {
      ExecutorIdles(s, step);
    }
  }

  lemma StartWrites(s: System, w: nat, q: nat, customer: nat, equipment: nat, acked: bool, other: nat)
    requires HasRecord(s, other)
    ensures var t := NextStart(s, w, q, customer, equipment, acked);
      && HasRecord(t, other) && t.docs.docs[RecordId(other)] == s.docs.docs[RecordId(other)]
      && (Finishes(At(t, w)).Some? ==> At(t, w) == At(s, w))
  {
    hide Batch, Admits;
    var r := Record(q, 0, CustomerRequested, customer, equipment, None, None, None, None);
    if Admits(s.docs, CreateWrites(r)) {
      BatchContents(s.docs, CreateWrites(r));
      NotCreated(s, r, other);
    }
  }

  lemma NotCreated(s: System, r: Record, other: nat)
    requires Admits(s.docs, CreateWrites(r)) && HasRecord(s, other)
    ensures RecordId(other) !in CreateWrites(r)
  {
    assert RecordId(r.request) in CreateWrites(r);
  }

  lemma IssueWrites(s: System, w: nat, acked: bool, q: nat)
    requires At(s, w).Issuing? && HasRecord(s, q) && HasReceipt(s, q)
    ensures var t := NextIssue(s, w, At(s, w), acked);
      HasRecord(t, q) && t.docs.docs[RecordId(q)] == s.docs.docs[RecordId(q)] && Finishes(At(t, w)) != Some(q)
  {
    hide Batch, Admits;
    var writes := ReceiptWrites(At(s, w).q, At(s, w).payload);
    if Admits(s.docs, writes) {
      BatchContents(s.docs, writes);
      NewReceipt(s, At(s, w).q, At(s, w).payload);
    }
  }

  lemma NewReceipt(s: System, q: nat, payload: Payload)
    requires Admits(s.docs, ReceiptWrites(q, payload))
    ensures !HasReceipt(s, q)
  {
    assert ReceiptId(q) in ReceiptWrites(q, payload);
  }

  lemma CommitWritesIt(s: System, w: nat, acked: bool, q: nat)
    requires At(s, w).Committing? && PositionOk(s, At(s, w)) && HasRecord(s, q) && !Finished(s, q) && !CanFinish(s, w, q)
    ensures var t := NextCommit(s, w, At(s, w), acked); HasRecord(t, q) && !Finished(t, q) && Finishes(At(t, w)).None?
  {
    hide Batch, Admits, RecordOk, SnapOk, Evolves, RecordBuilt, Consistent;
    var p := At(s, w);
    var writes := CommitWrites(p.updated, p.etag);
    if Admits(s.docs, writes) {
      BatchContents(s.docs, writes);
      CommitsCurrent(s, p.updated, p.etag);
    }
  }

  lemma CommitsCurrent(s: System, r: Record, etag: nat)
    requires Admits(s.docs, CommitWrites(r, etag))
    ensures RecordId(r.request) in s.docs.docs && s.docs.docs[RecordId(r.request)].etag == etag && RecordId(r.request) in CommitWrites(r, etag)
    ensures forall q: nat :: q != r.request ==> RecordId(q) !in CommitWrites(r, etag)
  {
    assert RecordId(r.request) in CommitWrites(r, etag);
  }

  /** The caller of a step neither completes the parked renewal nor comes to be able to. */
  lemma CallerLeavesParked(s: System, step: Step, q: nat)
    requires Inv(s) && Parked(s, q)
    ensures var t := Next(s, step); HasRecord(t, q) && !Finished(t, q) && !CanFinish(t, step.caller, q)
  {
    hide Inv, Next, NextStart, NextIssue, NextCommit, PositionOk;
    var w, p := step.caller, At(s, step.caller);
    assert !CanFinish(s, w, q);
    CallerOk(s, w);
    match step.act
    case Start(r, customer, equipment, acked) =>
      Desk.NextIsStarted(s, w, r, customer, equipment, acked, true);
      if p.Idle? { StartWrites(s, w, r, customer, equipment, acked, q); } else { Disabled(s, step); }
    case Issue(acked) =>
      Execution.NextIsWritten(s, w, None, None, true, acked);
      if p.Issuing? { IssueWrites(s, w, acked, q); } else { Disabled(s, step); }
    case Commit(acked) =>
      Execution.NextIsWritten(s, w, None, None, true, acked);
      if p.Committing? { CommitWritesIt(s, w, acked, q); } else { Disabled(s, step); }
    case _ => StepsIdly(s, step);
  }

  lemma Disabled(s: System, step: Step)
    ensures step.act.Start? && !At(s, step.caller).Idle? ==> Next(s, step) == s
    ensures step.act.Issue? && !At(s, step.caller).Issuing? ==> Next(s, step) == s
    ensures step.act.Commit? && !At(s, step.caller).Committing? ==> Next(s, step) == s
  {
    hide NextStart, NextIssue, NextCommit;
  }

  lemma StepKeepsParked(s: System, step: Step, q: nat)
    requires Inv(s) && Parked(s, q)
    ensures Inv(Next(s, step)) && Parked(Next(s, step), q)
  {
    hide Inv, Next, PositionOk;
    var t := Next(s, step);
    NextKeeps(s, step);
    CallerLeavesParked(s, step, q);
    forall v: nat ensures !CanFinish(t, v, q) {
      if v != step.caller {
        Execution.OtherLeavesMe(s, v, step);
        CallerOk(s, v);
        assert !CanFinish(s, v, q);
        if Finishes(At(s, v)) == Some(q) && At(s, v).Committing? {
          FinisherTag(s, v, q);
        }
      }
    }
  }

  lemma FinisherTag(s: System, v: nat, q: nat)
    requires PositionOk(s, At(s, v)) && Finishes(At(s, v)) == Some(q) && At(s, v).Committing?
    ensures At(s, v).etag < s.docs.clock
  {
  }

  lemma {:induction false} ParkedStays(s: System, steps: seq<Step>, q: nat)
    requires Inv(s) && Parked(s, q)
    ensures Inv(Run(Next, s, steps)) && Parked(Run(Next, s, steps), q)
  {
    hide Inv, Next, Parked;
    if steps != [] {
      ParkedStays(s, steps[..|steps| - 1], q);
      StepKeepsParked(Run(Next, s, steps[..|steps| - 1]), steps[|steps| - 1], q);
    }
  }

  lemma FinishesIt(s: System, w: nat, q: nat) returns (steps: seq<Step>)
    requires Inv(s) && CanFinish(s, w, q) && HasRecord(s, q)
    ensures Finished(Run(Next, s, steps), q)
  {
    hide Inv, Run, Next, PositionOk;
    Execution.NoSteps(s);
    var t;
    if At(s, w).Completing? {
      t, steps := Completes(s, s, [], w, q);
    } else {
      FinisherCommits(s, w, q);
      CommitNow(s, w);
      Then(s, s, [], Step(w, Commit(true)));
      steps := [] + [Step(w, Commit(true))];
    }
  }

  lemma FinisherCommits(s: System, w: nat, q: nat)
    requires Inv(s) && At(s, w).Committing? && Finishes(At(s, w)) == Some(q)
    ensures At(s, w).updated.request == q && At(s, w).updated.state.Completed?
  {
    hide Inv, SnapOk, RecordOk, Evolves, RecordBuilt;
    CallerOk(s, w);
  }

  /** A renewal that has its receipt but is not completed can still be completed if and only if
      the call that issued the receipt is still there to do it, on the record as it is: no retry,
      no runner and no other call ever does. */
  lemma CompletionExactlyWhen(s: System, q: nat)
    requires Inv(s) && HasRecord(s, q) && HasReceipt(s, q) && !Finished(s, q)
    ensures (exists steps :: Finished(Run(Next, s, steps), q)) <==> Finishable(s, q)
  {
    hide Inv, Run, Next, Finished, CanFinish;
    if Finishable(s, q) {
      var w: nat :| CanFinish(s, w, q);
      var steps := FinishesIt(s, w, q);
    } else {
      forall steps ensures !Finished(Run(Next, s, steps), q) {
        ParkedStays(s, steps, q);
      }
    }
  }

  /** Then nothing is ever served, and every execution that finds the receipt returns it and
      leaves the renewal as it is. */
  lemma ParkedForGood(config: Config, first: seq<Step>, second: seq<Step>, w: nat, q: nat)
    requires Parked(After(config, first), q)
    ensures var s, t := After(config, first), After(config, first + second); var p := At(t, w);
      && HasRecord(t, q) && !Rec(t, q).state.Completed? && HasReceipt(t, q) && ReceiptOf(t, q) == ReceiptOf(s, q)
      && !(p.Admitted? && p.q == q) && !(p.LookingUp? && p.q == q) && !(p.Fetching? && p.q == q) && !(p.Served? && p.q == q)
      && (p.Checking? && p.record.request == q ==> Next(t, Step(w, ReadReceipt)) == Goto(t, w, Returned(q, ReceiptOf(s, q))))
  {
    hide Inv, Next, Run;
    var s := After(config, first);
    Reaches(config, first);
    ParkedStays(s, second, q);
    RunAppend(Next, Initial(config), first, second);
    OneReceipt(config, first, second, q);
    var t := After(config, first + second);
    CallerOk(t, w);
    if At(t, w).Checking? {
      CheckIs(t, w);
    }
  }

  /** And it happens: the acknowledgement of the receipt is lost, the renewal is executing with
      its receipt, and from then on no run completes it. */
  lemma LostAcknowledgementParks(config: Config, w: nat, q: nat, year: int) returns (steps: seq<Step>)
    requires !SamePerson(config.operations, config.manager)
    ensures var t := After(config, steps); Parked(t, q) && Rec(t, q).state.Executing?
    ensures forall more :: !Finished(After(config, steps + more), q)
  {
    hide Inv, Run, Next, Alone, Finished, Grown;
    var s := Initial(config);
    var u, t;
    u, steps := ReachAllocating(config, w, w + 1, q, year);
    t, steps := Takes(s, u, steps, w, year, Invoices.ATTEMPTS - 1);
    ReceiptsByDocs(u, t, q);
    u := t;
    NoFinisherYet(u, q);
    t, steps := Issues(s, u, steps, w, q, false);
    ParkedNow(u, t, w, q);
    forall more ensures !Finished(After(config, steps + more), q) {
      ParkedStays(t, more, q);
      RunAppend(Next, s, steps, more);
    }
  }

  /** Without a receipt no one is about to complete. */
  lemma NoFinisherYet(s: System, q: nat)
    requires Inv(s) && !HasReceipt(s, q)
    ensures forall v: nat :: Finishes(At(s, v)) != Some(q)
  {
    hide Inv, SnapOk, RecordOk, Evolves, RecordBuilt;
    forall v: nat ensures Finishes(At(s, v)) != Some(q) {
      CallerOk(s, v);
    }
  }

  lemma ParkedNow(u: System, t: System, w: nat, q: nat)
    requires Alone(u, t, w) && At(t, w) == Failing(q) && HasReceipt(t, q) && HasRecord(t, q) && !Rec(t, q).state.Completed?
    requires forall v: nat :: Finishes(At(u, v)) != Some(q)
    ensures Parked(t, q)
  {
    forall v: nat ensures !CanFinish(t, v, q) {
      if v != w {
        assert At(t, v) == At(u, v);
      }
    }
  }

  // ---------------------------------------------------------------- completed after a failure

  /** Two calls for one renewal have both taken a number, and neither has issued its receipt. */
  lemma ReachBothRendering(config: Config, w: nat, v: nat, q: nat, year: int) returns (t: System, steps: seq<Step>)
    requires !SamePerson(config.operations, config.manager) && w != v
    ensures t == After(config, steps) && Inv(t) && HasRecord(t, q) && Rec(t, q).state.Executing? && !HasReceipt(t, q)
    ensures At(t, w).Rendering? && At(t, w).record.request == q && At(t, v).Rendering? && At(t, v).record.request == q
  {
    hide Inv, Run, Next, Alone, Beside, Grown;
    var s := Initial(config);
    var u;
    u, steps := ReachAllocating(config, w, v, q, year);
    t, steps := Enters(s, u, steps, v, q);
    AloneFacts(u, t, v, w);
    u := t;
    t, steps := Takes(s, u, steps, w, year, Invoices.ATTEMPTS - 1);
    AloneFacts(u, t, w, v);
    ReceiptsByDocs(u, t, q);
    u := t;
    t, steps := Takes(s, u, steps, v, year, Invoices.ATTEMPTS);
    AloneFacts(u, t, v, w);
    ReceiptsByDocs(u, t, q);
  }

  /** The one step of the audit that is in no table: one call's failure mark is committed between
      another call's receipt and its completing commit. */
  lemma FailureMeetsCompletion(config: Config, w: nat, v: nat, q: nat, year: int) returns (steps: seq<Step>)
    requires !SamePerson(config.operations, config.manager) && w != v
    ensures var t := After(config, steps); Finished(t, q) && Rec(t, q).revision >= 1
    ensures var t := After(config, steps); var n := Rec(t, q).revision;
      HasEvent(t, q, n - 1) && HasEvent(t, q, n) && EventState(t, q, n - 1).ExecutionFailed? && EventState(t, q, n).Completed?
  {
    hide Inv, Run, Next, Alone, Beside, Grown;
    var s := Initial(config);
    var u, t;
    u, steps := ReachBothRendering(config, w, v, q, year);
    t, steps := Issues(s, u, steps, w, q, true);
    AloneFacts(u, t, w, v);
    RenderFails(t, v);
    Then(s, t, steps, Step(v, Render(None, None)));
    steps, u := steps + [Step(v, Render(None, None))], Goto(t, v, Failing(q));
    t, steps := MarksFailed(s, u, steps, v, q);
    BesideAt(u, t, v, w);
    LastEvent(t, q);
    u := t;
    t, steps := Completes(s, u, steps, w, q);
    LastEvent(t, q);
    EventStays(u, t, q, Rec(u, q).revision);
  }

  lemma BesideAt(s: System, t: System, w: nat, v: nat)
    requires Beside(s, t, w) && v != w
    ensures At(t, v) == At(s, v)
  {
  }

  lemma LastEvent(s: System, q: nat)
    requires Inv(s) && HasRecord(s, q)
    ensures HasEvent(s, q, Rec(s, q).revision) && EventState(s, q, Rec(s, q).revision) == Rec(s, q).state
  {
    assert AuditOk(s, q);
  }

  lemma EventStays(s: System, t: System, q: nat, n: nat)
    requires Grown(s, t) && HasEvent(s, q, n)
    ensures HasEvent(t, q, n) && EventState(t, q, n) == EventState(s, q, n)
  {
  }

  // ---------------------------------------------------------------- redriven investigations

  lemma DriveIs(s: System, w: nat, q: nat)
    requires s.config.redriven && At(s, w).Idle?
    ensures Next(s, Step(w, DriveHold(q))) == Goto(s, w, Holding(q))
    ensures Next(s, Step(w, DriveBegin(q))) == Goto(s, w, Beginning(q, false))
    ensures Next(s, Step(w, DriveVerify(q))) == Goto(s, w, Verifying(q))
  {
  }

  lemma Moved(s: System, t: System, w: nat, reviewer: nat)
    requires Beside(s, t, w) && reviewer != w
    ensures t.config == s.config && t.built == s.built && At(t, reviewer) == At(s, reviewer)
  {
  }

  /** A drafted renewal is held and investigated again. */
  lemma HeldAndBegun(s: System, u: System, before: seq<Step>, w: nat, reviewer: nat, q: nat) returns (t: System, steps: seq<Step>)
    requires u == Run(Next, s, before) && Inv(u) && u.config.redriven && At(u, w).Idle? && w != reviewer
    requires HasRecord(u, q) && Rec(u, q).request == q && Rec(u, q).state.PackageDrafted?
    ensures t == Run(Next, s, steps) && Inv(t) && t.config == u.config && t.built == u.built && At(t, w).Idle? && At(t, reviewer) == At(u, reviewer)
    ensures HasRecord(t, q) && Rec(t, q) == Rec(u, q).(state := EvidenceAssembling, revision := Rec(u, q).revision + 2)
  {
    hide Inv, Run, Next, Moving, Beside, Grown;
    DriveIs(u, w, q);
    Then(s, u, before, Step(w, DriveHold(q)));
    var v := Goto(u, w, Holding(q));
    Desk.NextIsMoved(v, w);
    t, steps := MoveNow(s, v, before + [Step(w, DriveHold(q))], w, q, Step(w, LoadHold), EvidenceHold, Idle);
    Moved(v, t, w, reviewer);
    DriveIs(t, w, q);
    Then(s, t, steps, Step(w, DriveBegin(q)));
    steps, v := steps + [Step(w, DriveBegin(q))], Goto(t, w, Beginning(q, false));
    Desk.NextIsMoved(v, w);
    t, steps := MoveNow(s, v, steps, w, q, Step(w, LoadBegin), EvidenceAssembling, Idle);
    Moved(v, t, w, reviewer);
  }

  /** And ends with another package before Operations. */
  lemma DraftsAnother(s: System, u: System, before: seq<Step>, w: nat, reviewer: nat, q: nat, content: nat)
    returns (t: System, steps: seq<Step>)
    requires u == Run(Next, s, before) && Inv(u) && u.config.redriven && At(u, w).Idle? && w != reviewer
    requires HasRecord(u, q) && Rec(u, q).request == q && Rec(u, q).state.EvidenceAssembling?
    ensures t == Run(Next, s, steps) && Inv(t) && t.config == u.config && t.built == u.built && At(t, reviewer) == At(u, reviewer)
    ensures HasRecord(t, q) && Rec(t, q).state.AwaitingOperations?
    ensures Rec(t, q).package.Some? && Rec(t, q).hash == Some(PackageHash(PackageFor(q, Rec(u, q).customer, Rec(u, q).equipment, content)))
  {
    hide Inv, Run, Next, Moving, Beside, Grown;
    var package := PackageFor(q, Rec(u, q).customer, Rec(u, q).equipment, content);
    DriveIs(u, w, q);
    Then(s, u, before, Step(w, DriveVerify(q)));
    var v := Goto(u, w, Verifying(q));
    Desk.NextIsVerified(v, w, Eligible(Some(content)));
    t, steps := MoveNow(s, v, before + [Step(w, DriveVerify(q))], w, q, Step(w, LoadVerify(Eligible(Some(content)))), EligibilityVerified, Drafting(q, package));
    Moved(v, t, w, reviewer);
    v := t;
    Desk.NextIsVerified(v, w, Ineligible);
    assert v.(built := v.built) == v;
    t, steps := LoadAndCommit(s, v, steps, w, q, Step(w, LoadDraft),
                              Rec(v, q).(package := Some(package), hash := Some(PackageHash(package)), state := PackageDrafted, revision := Rec(v, q).revision + 1),
                              Presenting(q), v.built);
    Moved(v, t, w, reviewer);
    v := t;
    Desk.NextIsMoved(v, w);
    t, steps := MoveNow(s, v, steps, w, q, Step(w, LoadPresent), AwaitingOperations, Idle);
    Moved(v, t, w, reviewer);
  }

  /** When an investigation can be held and begun again by someone besides `start`, the package of
      a drafted renewal is replaced under a reviewer who has already restated it, and the decision
      is stored for the package that the reviewer never saw. */
  lemma RedriveBreaksTheBinding(config: Config, w: nat, reviewer: nat, q: nat, id: nat) returns (t: System, steps: seq<Step>)
    requires config.redriven && w != reviewer
    ensures t == After(config, steps) && HasRecord(t, q) && Rec(t, q).operations.Some?
    ensures |t.built| == 1 && t.built[0].recorded == Rec(t, q).operations.value.hash && t.built[0].restated != t.built[0].recorded
  {
    hide Inv, Run, Next, Moving, Beside, Untouched, Grown;
    var s, driver := Initial(config), w + reviewer + 1;
    var u;
    u, steps := ReachDrafted(config, w, q, 0, 0, 0);
    OthersIdle(u, w, reviewer);
    OthersIdle(u, w, driver);
    var command := Approving(Rec(u, q));
    ReviewOpens(u, reviewer, q, config.operations, command, false);
    Then(s, u, steps, Step(reviewer, Review(q, config.operations, command, false)));
    steps, t := steps + [Step(reviewer, Review(q, config.operations, command, false))], Goto(u, reviewer, OperationsDeciding(q, config.operations, command));
    t, steps := HeldAndBegun(s, t, steps, driver, reviewer, q);
    t, steps := DraftsAnother(s, t, steps, driver, reviewer, q, 1);
    t, steps := OperationsApproves(s, t, steps, reviewer, q, command, 0, id);
  }

  lemma OthersIdle(s: System, w: nat, v: nat)
    requires Untouched(s, w) && v != w
    ensures At(s, v).Idle?
  {
  }

  /** The stored Operations decision carries the hash its reviewer restated. */
  ghost predicate DecisionShown(s: System, q: nat) {
    HasRecord(s, q) && Rec(s, q).operations.Some? ==> Shown(s.built, q, Rec(s, q).operations.value.id, Rec(s, q).operations.value.hash)
  }

  /** The decisions of all runs are bound to what was displayed if and only if no one but `start`
      drives investigations. */
  lemma BindingHoldsExactlyWhen(config: Config)
    ensures (forall steps, q: nat :: DecisionShown(After(config, steps), q)) <==> !config.redriven
  {
    hide After;
    if config.redriven {
      var t, steps := RedriveBreaksTheBinding(config, 0, 1, 0, 0);
      assert !DecisionShown(After(config, steps), 0);
    } else {
      forall steps, q: nat ensures DecisionShown(After(config, steps), q) {
        if HasRecord(After(config, steps), q) {
          DecisionsMatchWhatWasShown(config, steps, q);
        }
      }
    }
  }
}
