/** Invoice numbers: one partition a year, holding a counter and one reservation document for
    each number taken. A number is taken by moving the counter and creating the reservation in
    one batch; a number may also be reserved outright. */
module InvoiceAllocator {
  import opened Results
  import opened DocumentStore
  import opened Traces

  datatype Invoice = Invoice(year: int, sequence: nat)

  datatype BookId = CounterId(year: int) | NumberId(invoice: Invoice)

  datatype BookDoc = CounterDoc(value: nat) | NumberDoc

  type Book = Partition<BookId, BookDoc>

  const ATTEMPTS := 5
  const LAST_NUMBER := 99999

  predicate HasCounter(p: Book, year: int) {
    CounterId(year) in p.docs && p.docs[CounterId(year)].body.CounterDoc?
  }

  function Counter(p: Book, year: int): nat
    requires HasCounter(p, year)
  {
    p.docs[CounterId(year)].body.value
  }

  function CounterTag(p: Book, year: int): nat
    requires HasCounter(p, year)
  {
    p.docs[CounterId(year)].etag
  }

  predicate Reserved(p: Book, invoice: Invoice) {
    NumberId(invoice) in p.docs
  }

  function OpenWrites(year: int): Writes<BookId, BookDoc> {
    map[CounterId(year) := Create(CounterDoc(0))]
  }

  function TakeWrites(invoice: Invoice, etag: nat): Writes<BookId, BookDoc> {
    map[CounterId(invoice.year) := Replace(CounterDoc(invoice.sequence), etag),
        NumberId(invoice) := Create(NumberDoc)]
  }

  function ReserveWrites(invoice: Invoice): Writes<BookId, BookDoc> {
    map[NumberId(invoice) := Create(NumberDoc)]
  }

  // ---------------------------------------------------------------- the machine

  /** Why an allocation gave up. */
  datatype Failure = ConflictRaised | ErrorRaised

  datatype Position =
    | Idle
    | Reading(year: int, tries: nat)
    | Opening(year: int, tries: nat)
    | Taking(invoice: Invoice, etag: nat, tries: nat)
    | Done(invoice: Invoice)
    | GaveUp(failure: Failure)

  datatype Grant = Grant(caller: nat, invoice: Invoice)

  /** `grants` is every number whose reservation took effect, in that order; `taken` those that
      were handed over to their caller. */
  datatype Ledger = Ledger(book: Book, callers: map<nat, Position>, grants: seq<Grant>, taken: set<Invoice>)

  const NEW_LEDGER := Ledger(Partition(map[], 0), map[], [], {})

  function At(s: Ledger, w: nat): Position {
    if w in s.callers then s.callers[w] else Idle
  }

  function Goto(s: Ledger, w: nat, p: Position): Ledger {
    s.(callers := s.callers[w := p])
  }

  /** An unacknowledged write takes effect, but its caller sees an error that is not a conflict. */
  datatype Act =
    | Start(year: int)
    | Read
    | Open(acked: bool)
    | Take(acked: bool)
    | Reserve(invoice: Invoice, acked: bool)
    | Collect
    | Crash

  datatype Step = Step(caller: nat, act: Act)

  function Next(s: Ledger, step: Step): Ledger {
    var w, p := step.caller, At(s, step.caller);
    match step.act
    case Start(year) => if p.Idle? then Goto(s, w, Reading(year, ATTEMPTS)) else s
    case Read => if p.Reading? then NextRead(s, w, p) else s
    case Open(acked) => if p.Opening? then NextOpen(s, w, p, acked) else s
    case Take(acked) => if p.Taking? then NextTake(s, w, p, acked) else s
    case Reserve(invoice, acked) => if p.Idle? then NextReserve(s, w, invoice, acked) else s
    case Collect =>
      if p.Done? then Goto(s.(taken := s.taken + {p.invoice}), w, Idle)
      else if p.GaveUp? then Goto(s, w, Idle) else s
    case Crash => Goto(s, w, Idle)
  }

  /** The next attempt, or the end of the loop. */
  function Again(s: Ledger, w: nat, year: int, tries: nat): Ledger {
    Goto(s, w, if tries <= 1 then GaveUp(ConflictRaised) else Reading(year, tries - 1))
  }

  function NextRead(s: Ledger, w: nat, p: Position): Ledger
    requires p.Reading?
  {
    if !HasCounter(s.book, p.year) then Goto(s, w, Opening(p.year, p.tries))
    else if Counter(s.book, p.year) + 1 > LAST_NUMBER then Goto(s, w, GaveUp(ConflictRaised))
    else Goto(s, w, Taking(Invoice(p.year, Counter(s.book, p.year) + 1), CounterTag(s.book, p.year), p.tries))
  }

  /** The counter is created at zero; another allocator may have been first. Either way the
      attempt is spent. */
  function NextOpen(s: Ledger, w: nat, p: Position, acked: bool): Ledger
    requires p.Opening?
  {
    if !Admits(s.book, OpenWrites(p.year)) then Again(s, w, p.year, p.tries)
    else
      var t := s.(book := Batch(s.book, OpenWrites(p.year)));
      if acked then Again(t, w, p.year, p.tries) else Goto(t, w, GaveUp(ErrorRaised))
  }

  function NextTake(s: Ledger, w: nat, p: Position, acked: bool): Ledger
    requires p.Taking?
  {
    if !Admits(s.book, TakeWrites(p.invoice, p.etag)) then Again(s, w, p.invoice.year, p.tries)
    else
      var t := s.(book := Batch(s.book, TakeWrites(p.invoice, p.etag)), grants := s.grants + [Grant(w, p.invoice)]);
      Goto(t, w, if acked then Done(p.invoice) else GaveUp(ErrorRaised))
  }

  predicate Reservable(invoice: Invoice) {
    2000 <= invoice.year <= 9999 && 1 <= invoice.sequence <= LAST_NUMBER
  }

  /** `reserve_invoice_number`: create-only. */
  function NextReserve(s: Ledger, w: nat, invoice: Invoice, acked: bool): Ledger {
    if !Reservable(invoice) then Goto(s, w, GaveUp(ErrorRaised))
    else if !Admits(s.book, ReserveWrites(invoice)) then Goto(s, w, GaveUp(ConflictRaised))
    else
      var t := s.(book := Batch(s.book, ReserveWrites(invoice)), grants := s.grants + [Grant(w, invoice)]);
      Goto(t, w, if acked then Done(invoice) else GaveUp(ErrorRaised))
  }

  // ---------------------------------------------------------------- the invariant

  ghost predicate Filed(s: Ledger) {
    && Tagged(s.book)
    && (forall y: int :: CounterId(y) in s.book.docs ==> HasCounter(s.book, y) && Counter(s.book, y) <= LAST_NUMBER)
    && (forall n: Invoice :: Reserved(s.book, n) <==> Granted(s, n))
  }

  ghost predicate Granted(s: Ledger, invoice: Invoice) {
    exists i :: 0 <= i < |s.grants| && s.grants[i].invoice == invoice
  }

  ghost predicate Distinct(s: Ledger) {
    forall i, j :: 0 <= i < j < |s.grants| ==> s.grants[i].invoice != s.grants[j].invoice
  }

  ghost predicate PositionOk(s: Ledger, w: nat, p: Position) {
    match p
    case Taking(invoice, etag, _) =>
      && 1 <= invoice.sequence <= LAST_NUMBER
      && HasCounter(s.book, invoice.year) && etag < s.book.clock
      && (CounterTag(s.book, invoice.year) == etag ==> Counter(s.book, invoice.year) + 1 == invoice.sequence)
    case Done(invoice) => Grant(w, invoice) in s.grants && invoice !in s.taken
    case _ => true
  }

  ghost predicate Inv(s: Ledger) {
    && Filed(s) && Distinct(s)
    && (forall n :: n in s.taken ==> Granted(s, n))
    && (forall w :: w in s.callers ==> PositionOk(s, w, s.callers[w]))
  }

  /** What a later moment keeps of an earlier one. */
  ghost predicate Later(s: Ledger, t: Ledger) {
    && s.grants <= t.grants && s.taken <= t.taken
    && (forall y: int :: HasCounter(s.book, y) ==> HasCounter(t.book, y) && Counter(s.book, y) <= Counter(t.book, y))
  }

  lemma GotoKeeps(s: Ledger, w: nat, p: Position)
    requires Inv(s) && PositionOk(s, w, p)
    ensures Inv(Goto(s, w, p)) && Later(s, Goto(s, w, p))
  {
    var t := Goto(s, w, p);
    assert forall n :: Granted(t, n) <==> Granted(s, n);
    forall v | v in t.callers ensures PositionOk(t, v, t.callers[v]) {
      assert PositionOk(s, v, if v == w then p else s.callers[v]);
    }
  }

  lemma PlainKeeps(s: Ledger, w: nat, p: Position)
    requires Inv(s) && (p.Idle? || p.Reading? || p.Opening? || p.GaveUp?)
    ensures Inv(Goto(s, w, p)) && Later(s, Goto(s, w, p))
  {
    hide Inv, Later;
    assert PositionOk(s, w, p);
    GotoKeeps(s, w, p);
  }

  lemma ReadKeeps(s: Ledger, w: nat, p: Position)
    requires Inv(s) && p.Reading?
    ensures Inv(NextRead(s, w, p)) && Later(s, NextRead(s, w, p))
  {
    hide Later;
    PlainKeeps(s, w, Opening(p.year, p.tries));
    PlainKeeps(s, w, GaveUp(ConflictRaised));
    if HasCounter(s.book, p.year) && Counter(s.book, p.year) + 1 <= LAST_NUMBER {
      var q := Taking(Invoice(p.year, Counter(s.book, p.year) + 1), CounterTag(s.book, p.year), p.tries);
      assert PositionOk(s, w, q);
      GotoKeeps(s, w, q);
    }
  }

  /** `t` is `s` with one counter created or moved up, and perhaps one new reservation. */
  ghost predicate Advanced(s: Ledger, t: Ledger, grants: seq<Grant>) {
    && t == s.(book := t.book, grants := s.grants + grants)
    && |grants| <= 1 && (grants != [] ==> !Reserved(s.book, grants[0].invoice))
    && s.book.clock < t.book.clock
    && (forall y: int :: HasCounter(s.book, y) ==>
          HasCounter(t.book, y) && Counter(s.book, y) <= Counter(t.book, y)
          && (t.book.docs[CounterId(y)] == s.book.docs[CounterId(y)] || CounterTag(t.book, y) == s.book.clock))
    && Tagged(t.book)
    && (forall y: int :: CounterId(y) in t.book.docs ==> HasCounter(t.book, y) && Counter(t.book, y) <= LAST_NUMBER)
    && (forall n: Invoice :: Reserved(t.book, n) <==> Reserved(s.book, n) || (grants != [] && n == grants[0].invoice))
  }

  lemma AdvancedKeeps(s: Ledger, t: Ledger, grants: seq<Grant>)
    requires Inv(s) && Advanced(s, t, grants)
    ensures Inv(t) && Later(s, t)
  {
    hide Reserved;
    GrantedAfter(s, t, grants);
    forall v | v in t.callers ensures PositionOk(t, v, t.callers[v]) {
      assert PositionOk(s, v, s.callers[v]);
    }
    if grants != [] {
      assert !Granted(s, grants[0].invoice);
      forall i, j | 0 <= i < j < |t.grants| ensures t.grants[i].invoice != t.grants[j].invoice {
        assert t.grants[i] == s.grants[i];
      }
    }
  }

  lemma GrantedAfter(s: Ledger, t: Ledger, grants: seq<Grant>)
    requires t.grants == s.grants + grants && |grants| <= 1
    ensures forall n :: Granted(t, n) <==> Granted(s, n) || (grants != [] && n == grants[0].invoice)
  {
    forall n ensures Granted(t, n) <==> Granted(s, n) || (grants != [] && n == grants[0].invoice) {
      if Granted(s, n) {
        var i :| 0 <= i < |s.grants| && s.grants[i].invoice == n;
        assert t.grants[i] == s.grants[i];
      }
      if grants != [] {
        assert t.grants[|s.grants|] == grants[0];
      }
    }
  }

  lemma OpenKeeps(s: Ledger, w: nat, p: Position, acked: bool)
    requires Inv(s) && p.Opening?
    ensures Inv(NextOpen(s, w, p, acked)) && Later(s, NextOpen(s, w, p, acked))
  {
    if Admits(s.book, OpenWrites(p.year)) {
      var t := s.(book := Batch(s.book, OpenWrites(p.year)));
      OpenEffect(s, p.year);
      hide Inv, Later, Advanced, Batch, Admits;
      AdvancedKeeps(s, t, []);
      PlainKeeps(t, w, if acked && p.tries > 1 then Reading(p.year, p.tries - 1) else if acked then GaveUp(ConflictRaised) else GaveUp(ErrorRaised));
      LaterComposes(s, t, NextOpen(s, w, p, acked));
    } else {
      hide Inv, Later;
      PlainKeeps(s, w, if p.tries > 1 then Reading(p.year, p.tries - 1) else GaveUp(ConflictRaised));
    }
  }

  lemma OpenEffect(s: Ledger, year: int)
    requires Inv(s) && Admits(s.book, OpenWrites(year))
    ensures Advanced(s, s.(book := Batch(s.book, OpenWrites(year))), [])
  {
    hide Batch, Admits, Inv;
    var writes := OpenWrites(year);
    BookFacts(s);
    BatchKeepsTags(s.book, writes);
    BatchContents(s.book, writes);
    WhatIsAdmitted(s.book);
    assert s.grants + [] == s.grants;
  }

  lemma TakeEffect(s: Ledger, w: nat, p: Position)
    requires Inv(s) && p.Taking? && PositionOk(s, w, p) && Admits(s.book, TakeWrites(p.invoice, p.etag))
    ensures var t := s.(book := Batch(s.book, TakeWrites(p.invoice, p.etag)), grants := s.grants + [Grant(w, p.invoice)]);
      && Advanced(s, t, [Grant(w, p.invoice)])
      && HasCounter(s.book, p.invoice.year) && Counter(s.book, p.invoice.year) + 1 == p.invoice.sequence
      && HasCounter(t.book, p.invoice.year) && Counter(t.book, p.invoice.year) == p.invoice.sequence
      && (forall y: int :: y != p.invoice.year && HasCounter(t.book, y) ==> HasCounter(s.book, y) && Counter(s.book, y) == Counter(t.book, y))
  {
    hide Batch, Admits, Inv;
    var writes := TakeWrites(p.invoice, p.etag);
    BookFacts(s);
    BatchKeepsTags(s.book, writes);
    BatchContents(s.book, writes);
    WhatIsAdmitted(s.book);
  }

  lemma BookFacts(s: Ledger)
    requires Inv(s)
    ensures Tagged(s.book)
    ensures forall y: int :: CounterId(y) in s.book.docs ==> HasCounter(s.book, y) && Counter(s.book, y) <= LAST_NUMBER
  {
  }

  lemma WhatIsAdmitted(p: Book)
    ensures forall y: int :: Admits(p, OpenWrites(y)) <==> CounterId(y) !in p.docs
    ensures forall n: Invoice :: Admits(p, ReserveWrites(n)) <==> !Reserved(p, n)
    ensures forall n: Invoice, etag: nat :: Admits(p, TakeWrites(n, etag)) <==>
      CounterId(n.year) in p.docs && p.docs[CounterId(n.year)].etag == etag && !Reserved(p, n)
  {
    forall n: Invoice, etag: nat
      ensures Admits(p, TakeWrites(n, etag)) <==> CounterId(n.year) in p.docs && p.docs[CounterId(n.year)].etag == etag && !Reserved(p, n)
    {
      assert CounterId(n.year) in TakeWrites(n, etag) && NumberId(n) in TakeWrites(n, etag);
    }
    forall n: Invoice ensures Admits(p, ReserveWrites(n)) <==> !Reserved(p, n) {
      assert NumberId(n) in ReserveWrites(n);
    }
    forall y: int ensures Admits(p, OpenWrites(y)) <==> CounterId(y) !in p.docs {
      assert CounterId(y) in OpenWrites(y);
    }
  }

  lemma TakeKeeps(s: Ledger, w: nat, p: Position, acked: bool)
    requires Inv(s) && p.Taking? && PositionOk(s, w, p)
    ensures Inv(NextTake(s, w, p, acked)) && Later(s, NextTake(s, w, p, acked))
  {
    hide Inv, Later, Advanced, Batch, Admits, Granted, Reserved;
    if Admits(s.book, TakeWrites(p.invoice, p.etag)) {
      TakeEffect(s, w, p);
      GrantedKeeps(s, s.(book := Batch(s.book, TakeWrites(p.invoice, p.etag)), grants := s.grants + [Grant(w, p.invoice)]), w, p.invoice, acked);
    } else {
      PlainKeeps(s, w, if p.tries > 1 then Reading(p.invoice.year, p.tries - 1) else GaveUp(ConflictRaised));
    }
  }

  lemma ReserveKeeps(s: Ledger, w: nat, invoice: Invoice, acked: bool)
    requires Inv(s)
    ensures Inv(NextReserve(s, w, invoice, acked)) && Later(s, NextReserve(s, w, invoice, acked))
  {
    hide Inv, Later, Advanced, Batch, Admits, Granted, Reserved;
    PlainKeeps(s, w, GaveUp(ConflictRaised));
    PlainKeeps(s, w, GaveUp(ErrorRaised));
    if Reservable(invoice) && Admits(s.book, ReserveWrites(invoice)) {
      ReserveEffect(s, w, invoice);
      GrantedKeeps(s, s.(book := Batch(s.book, ReserveWrites(invoice)), grants := s.grants + [Grant(w, invoice)]), w, invoice, acked);
    }
  }

  lemma ReserveEffect(s: Ledger, w: nat, invoice: Invoice)
    requires Inv(s) && Admits(s.book, ReserveWrites(invoice))
    ensures Advanced(s, s.(book := Batch(s.book, ReserveWrites(invoice)), grants := s.grants + [Grant(w, invoice)]), [Grant(w, invoice)])
  {
    hide Batch, Admits, Inv;
    var writes := ReserveWrites(invoice);
    BookFacts(s);
    BatchKeepsTags(s.book, writes);
    BatchContents(s.book, writes);
    WhatIsAdmitted(s.book);
  }

  lemma GrantedKeeps(s: Ledger, t: Ledger, w: nat, invoice: Invoice, acked: bool)
    requires Inv(s) && Advanced(s, t, [Grant(w, invoice)])
    ensures var u := Goto(t, w, if acked then Done(invoice) else GaveUp(ErrorRaised)); Inv(u) && Later(s, u)
  {
    NotYetTaken(s, t, w, invoice);
    hide Inv, Later, Advanced;
    AdvancedKeeps(s, t, [Grant(w, invoice)]);
    var p := if acked then Done(invoice) else GaveUp(ErrorRaised);
    assert PositionOk(t, w, p);
    GotoKeeps(t, w, p);
    LaterComposes(s, t, Goto(t, w, p));
  }

  lemma NotYetTaken(s: Ledger, t: Ledger, w: nat, invoice: Invoice)
    requires Inv(s) && Advanced(s, t, [Grant(w, invoice)])
    ensures invoice !in t.taken && Grant(w, invoice) in t.grants
  {
    assert t.grants[|s.grants|] == Grant(w, invoice);
  }

  /** A number is handed over once: its grant names the only caller that can collect it. */
  lemma CollectKeeps(s: Ledger, w: nat, p: Position)
    requires Inv(s) && p.Done? && w in s.callers && s.callers[w] == p
    ensures var t := Goto(s.(taken := s.taken + {p.invoice}), w, Idle); Inv(t) && Later(s, t)
    ensures p.invoice !in s.taken
  {
    var t := Goto(s.(taken := s.taken + {p.invoice}), w, Idle);
    assert PositionOk(s, w, p);
    assert forall n :: Granted(t, n) <==> Granted(s, n);
    forall v | v in t.callers ensures PositionOk(t, v, t.callers[v]) {
      if v != w {
        assert PositionOk(s, v, s.callers[v]);
        if s.callers[v].Done? {
          OneHolder(s, v, s.callers[v].invoice, w, p.invoice);
        }
      }
    }
  }

  lemma OneHolder(s: Ledger, v: nat, n: Invoice, w: nat, m: Invoice)
    requires Distinct(s) && v != w && Grant(v, n) in s.grants && Grant(w, m) in s.grants
    ensures n != m
  {
    var i :| 0 <= i < |s.grants| && s.grants[i] == Grant(v, n);
    var j :| 0 <= j < |s.grants| && s.grants[j] == Grant(w, m);
    assert i < j || j < i;
  }

  lemma LaterComposes(s: Ledger, t: Ledger, u: Ledger)
    requires Later(s, t) && Later(t, u)
    ensures Later(s, u)
  {
  }

  lemma SameIsLater(s: Ledger)
    ensures Later(s, s)
  {
  }

  lemma CallerOk(s: Ledger, w: nat)
    requires Inv(s)
    ensures PositionOk(s, w, At(s, w)) && (At(s, w).Idle? || w in s.callers)
  {
  }

  lemma NextKeeps(s: Ledger, step: Step)
    requires Inv(s)
    ensures Inv(Next(s, step)) && Later(s, Next(s, step))
  {
    hide Inv, Later, PositionOk, NextRead, NextOpen, NextTake, NextReserve;
    var w, p := step.caller, At(s, step.caller);
    SameIsLater(s);
    CallerOk(s, w);
    match step.act
    case Start(year) => PlainKeeps(s, w, Reading(year, ATTEMPTS));
    case Read => if p.Reading? { ReadKeeps(s, w, p); }
    case Open(acked) => if p.Opening? { OpenKeeps(s, w, p, acked); }
    case Take(acked) => if p.Taking? { TakeKeeps(s, w, p, acked); }
    case Reserve(invoice, acked) => if p.Idle? { ReserveKeeps(s, w, invoice, acked); }
    case Collect =>
      if p.Done? { CollectKeeps(s, w, p); }
      PlainKeeps(s, w, Idle);
    case Crash => PlainKeeps(s, w, Idle);
  }

  // ---------------------------------------------------------------- the results

  lemma {:induction false} HistoryOnlyGrows(s: Ledger, steps: seq<Step>)
    requires Inv(s)
    ensures Inv(Run(Next, s, steps)) && Later(s, Run(Next, s, steps))
  {
    hide Inv, Later, Next;
    if steps == [] {
      SameIsLater(s);
    } else {
      var t := Run(Next, s, steps[..|steps| - 1]);
      HistoryOnlyGrows(s, steps[..|steps| - 1]);
      NextKeeps(t, steps[|steps| - 1]);
      LaterComposes(s, t, Next(t, steps[|steps| - 1]));
    }
  }

  /** Allocators and outright reservations, mixed in any way: no number is ever granted twice,
      a number is reserved exactly when it was granted, and only granted numbers are returned. */
  lemma NoNumberTwice(steps: seq<Step>)
    ensures var t := Run(Next, NEW_LEDGER, steps);
      && (forall i, j :: 0 <= i < j < |t.grants| ==> t.grants[i].invoice != t.grants[j].invoice)
      && (forall n: Invoice :: Reserved(t.book, n) <==> exists i :: 0 <= i < |t.grants| && t.grants[i].invoice == n)
      && (forall n :: n in t.taken ==> Reserved(t.book, n))
  {
    assert Inv(NEW_LEDGER);
    HistoryOnlyGrows(NEW_LEDGER, steps);
    var t := Run(Next, NEW_LEDGER, steps);
    forall n: Invoice ensures Reserved(t.book, n) <==> exists i :: 0 <= i < |t.grants| && t.grants[i].invoice == n {
      assert Reserved(t.book, n) <==> Granted(t, n);
    }
  }

  // ---------------------------------------------------------------- allocators alone

  predicate OnlyAllocators(steps: seq<Step>) {
    forall i :: 0 <= i < |steps| ==> !steps[i].act.Reserve?
  }

  /** The reserved numbers of a year are exactly one to its counter, granted in that order. */
  ghost predicate Dense(s: Ledger) {
    && (forall n: Invoice :: Reserved(s.book, n) <==> HasCounter(s.book, n.year) && 1 <= n.sequence <= Counter(s.book, n.year))
    && (forall i, j :: 0 <= i < j < |s.grants| && s.grants[i].invoice.year == s.grants[j].invoice.year
          ==> s.grants[i].invoice.sequence < s.grants[j].invoice.sequence)
  }

  lemma NextKeepsDense(s: Ledger, step: Step)
    requires Inv(s) && Dense(s) && !step.act.Reserve?
    ensures Dense(Next(s, step))
  {
    hide Inv, Dense, Batch, Admits, TakeWrites, OpenWrites, PositionOk;
    var w, p := step.caller, At(s, step.caller);
    CallerOk(s, w);
    if step.act.Take? && p.Taking? && Admits(s.book, TakeWrites(p.invoice, p.etag)) {
      TakeKeepsDense(s, w, p);
      DenseDepends(s.(book := Batch(s.book, TakeWrites(p.invoice, p.etag)), grants := s.grants + [Grant(w, p.invoice)]), Next(s, step));
    } else if step.act.Open? && p.Opening? && Admits(s.book, OpenWrites(p.year)) {
      OpenKeepsDense(s, p.year);
      DenseDepends(s.(book := Batch(s.book, OpenWrites(p.year))), Next(s, step));
    } else {
      DenseDepends(s, Next(s, step));
    }
  }

  lemma TakeKeepsDense(s: Ledger, w: nat, p: Position)
    requires Inv(s) && Dense(s) && p.Taking? && PositionOk(s, w, p) && Admits(s.book, TakeWrites(p.invoice, p.etag))
    ensures Dense(s.(book := Batch(s.book, TakeWrites(p.invoice, p.etag)), grants := s.grants + [Grant(w, p.invoice)]))
  {
    hide Inv, Batch, Admits, TakeWrites;
    TakeEffect(s, w, p);
    GrantsWithinCounter(s);
  }

  lemma OpenKeepsDense(s: Ledger, year: int)
    requires Dense(s) && Admits(s.book, OpenWrites(year))
    ensures Dense(s.(book := Batch(s.book, OpenWrites(year))))
  {
    hide Batch, Admits;
    WhatIsAdmitted(s.book);
    BatchContents(s.book, OpenWrites(year));
  }

  lemma DenseDepends(s: Ledger, t: Ledger)
    requires Dense(s) && t.book == s.book && t.grants == s.grants
    ensures Dense(t)
  {
  }

  lemma GrantsWithinCounter(s: Ledger)
    requires Inv(s) && Dense(s)
    ensures forall i :: 0 <= i < |s.grants| ==>
      HasCounter(s.book, s.grants[i].invoice.year) && s.grants[i].invoice.sequence <= Counter(s.book, s.grants[i].invoice.year)
  {
    forall i | 0 <= i < |s.grants|
      ensures HasCounter(s.book, s.grants[i].invoice.year) && s.grants[i].invoice.sequence <= Counter(s.book, s.grants[i].invoice.year)
    {
      assert Granted(s, s.grants[i].invoice);
      assert Reserved(s.book, s.grants[i].invoice);
    }
  }

  /** However allocators race and crash, the numbers of a year rise in the order in which they
      are granted, and the reserved set is exactly one to the counter: no gap, no repetition. */
  lemma {:induction false} NumbersAreConsecutive(steps: seq<Step>)
    requires OnlyAllocators(steps)
    ensures Dense(Run(Next, NEW_LEDGER, steps))
  {
    assert Inv(NEW_LEDGER);
    if steps != [] {
      var init, last := steps[..|steps| - 1], steps[|steps| - 1];
      assert steps == init + [last];
      assert forall i :: 0 <= i < |init| ==> init[i] == steps[i];
      NumbersAreConsecutive(init);
      HistoryOnlyGrows(NEW_LEDGER, init);
      hide Inv, Dense, Next;
      NextKeepsDense(Run(Next, NEW_LEDGER, init), last);
    }
  }

  // ---------------------------------------------------------------- when a year is over

  /** The next number of the year can still be taken. */
  predicate Free(p: Book, year: int) {
    HasCounter(p, year) && Counter(p, year) < LAST_NUMBER && !Reserved(p, Invoice(year, Counter(p, year) + 1))
  }

  /** The year has a counter, and its next number is beyond the last one or reserved outright. */
  predicate Blocked(p: Book, year: int) {
    HasCounter(p, year) && !Free(p, year)
  }

  /** Nothing is ever deleted, and a counter only moves by taking the next number: a blocked year
      stays as it is, and no batch of an allocator is admitted in it. */
  lemma StepKeepsBlocked(s: Ledger, step: Step, year: int)
    requires Inv(s) && Blocked(s.book, year)
    ensures var t := Next(s, step); Blocked(t.book, year) && Counter(t.book, year) == Counter(s.book, year)
  {
    hide Inv, Batch, Admits, TakeWrites, PositionOk, Later;
    var w, p := step.caller, At(s, step.caller);
    CallerOk(s, w);
    if step.act.Take? && p.Taking? && Admits(s.book, TakeWrites(p.invoice, p.etag)) {
      BlockedRefuses(s, w, year);
      TakeEffect(s, w, p);
      BlockedBeside(s.book, s.(book := Batch(s.book, TakeWrites(p.invoice, p.etag)), grants := s.grants + [Grant(w, p.invoice)]), s, year, [Grant(w, p.invoice)]);
    } else if step.act.Open? && p.Opening? && Admits(s.book, OpenWrites(p.year)) {
      OpenEffect(s, p.year);
      WhatIsAdmitted(s.book);
      CounterKept(s.book, OpenWrites(p.year), year);
    } else if step.act.Reserve? && p.Idle? && Admits(s.book, ReserveWrites(step.act.invoice)) {
      CounterKept(s.book, ReserveWrites(step.act.invoice), year);
    }
  }

  /** A caller's batch in a blocked year is refused. */
  lemma BlockedRefuses(s: Ledger, w: nat, year: int)
    requires Inv(s) && Blocked(s.book, year)
    ensures At(s, w).Taking? && At(s, w).invoice.year == year ==> !Admits(s.book, TakeWrites(At(s, w).invoice, At(s, w).etag))
  {
    hide Inv, Admits;
    CallerOk(s, w);
    WhatIsAdmitted(s.book);
  }

  lemma BlockedBeside(p: Book, t: Ledger, s: Ledger, year: int, grants: seq<Grant>)
    requires p == s.book && Advanced(s, t, grants) && Blocked(p, year) && HasCounter(t.book, year) && Counter(t.book, year) == Counter(p, year)
    ensures Blocked(t.book, year)
  {
  }

  lemma CounterKept(p: Book, writes: Writes<BookId, BookDoc>, year: int)
    requires Admits(p, writes) && Blocked(p, year) && CounterId(year) !in writes
    ensures var q := Batch(p, writes); Blocked(q, year) && Counter(q, year) == Counter(p, year)
  {
    hide Admits, Batch;
    BatchContents(p, writes);
  }

  lemma {:induction false} BlockedStays(s: Ledger, steps: seq<Step>, year: int)
    requires Inv(s) && Blocked(s.book, year)
    ensures var t := Run(Next, s, steps); Inv(t) && Blocked(t.book, year) && Counter(t.book, year) == Counter(s.book, year)
  {
    hide Inv, Next, Blocked;
    if steps != [] {
      BlockedStays(s, steps[..|steps| - 1], year);
      StepKeepsBlocked(Run(Next, s, steps[..|steps| - 1]), steps[|steps| - 1], year);
      NextKeeps(Run(Next, s, steps[..|steps| - 1]), steps[|steps| - 1]);
    }
  }

  /** A number was allocated: the counter of the year moved. */
  ghost predicate Moved(s: Ledger, t: Ledger, year: int) {
    HasCounter(s.book, year) && HasCounter(t.book, year) && Counter(t.book, year) > Counter(s.book, year)
  }

  /** Whatever anyone does, a year with a counter can give out another number if and only if its
      next one is neither beyond the last nor reserved outright. Reserving one number ahead ends
      the year for every allocator. */
  lemma YearGoesOnExactlyWhen(s: Ledger, year: int)
    requires Inv(s) && HasCounter(s.book, year)
    ensures (exists steps :: Moved(s, Run(Next, s, steps), year)) <==> Free(s.book, year)
  {
    hide Inv, Next;
    if Free(s.book, year) {
      var steps := TakesNext(s, year);
      assert Moved(s, Run(Next, s, steps), year);
    }
    forall steps | Moved(s, Run(Next, s, steps), year) ensures Free(s.book, year) {
      if Blocked(s.book, year) {
        BlockedStays(s, steps, year);
      }
    }
  }

  /** `reserve_invoice_number` one number ahead: no allocation of that year is ever granted again. */
  lemma ReservingAheadEndsAYear(s: Ledger, w: nat, year: int, acked: bool, steps: seq<Step>)
    requires Inv(s) && At(s, w).Idle? && HasCounter(s.book, year) && Reservable(Invoice(year, Counter(s.book, year) + 1))
    ensures var t := Run(Next, Next(s, Step(w, Reserve(Invoice(year, Counter(s.book, year) + 1), acked))), steps);
      && Blocked(t.book, year) && Counter(t.book, year) == Counter(s.book, year)
      && forall v, ok :: At(t, v).Taking? && At(t, v).invoice.year == year ==> Next(t, Step(v, Take(ok))).grants == t.grants
  {
    var n := Invoice(year, Counter(s.book, year) + 1);
    var u := Next(s, Step(w, Reserve(n, acked)));
    ReservedNow(s, w, n, acked);
    NextKeeps(s, Step(w, Reserve(n, acked)));
    BlockedStays(u, steps, year);
    hide Inv, Next, Admits;
    var t := Run(Next, u, steps);
    forall v, ok | At(t, v).Taking? && At(t, v).invoice.year == year ensures Next(t, Step(v, Take(ok))).grants == t.grants {
      BlockedRefuses(t, v, year);
      TakeIs(t, v, ok);
    }
  }

  lemma ReservedNow(s: Ledger, w: nat, n: Invoice, acked: bool)
    requires At(s, w).Idle? && HasCounter(s.book, n.year) && n.sequence == Counter(s.book, n.year) + 1 && Reservable(n)
    ensures var u := Next(s, Step(w, Reserve(n, acked))); Blocked(u.book, n.year) && Counter(u.book, n.year) == Counter(s.book, n.year)
  {
    hide Batch, Admits;
    WhatIsAdmitted(s.book);
    if Admits(s.book, ReserveWrites(n)) {
      BatchContents(s.book, ReserveWrites(n));
      assert NumberId(n) in ReserveWrites(n);
    }
  }

  /** Someone who is not under way. */
  lemma Newcomer<T>(callers: map<nat, T>) returns (w: nat)
    ensures w !in callers
  {
    w := Above(callers.Keys);
  }

  lemma {:induction false} Above(used: set<nat>) returns (w: nat)
    ensures forall v :: v in used ==> v < w
  {
    if used == {} {
      w := 0;
    } else {
      var x :| x in used;
      var u := Above(used - {x});
      w := if x < u then u else x + 1;
      assert forall v :: v in used ==> v == x || v in used - {x};
    }
  }

  lemma TakesNext(s: Ledger, year: int) returns (steps: seq<Step>)
    requires Inv(s) && Free(s.book, year)
    ensures Moved(s, Run(Next, s, steps), year)
  {
    hide Inv, Run, Next;
    var w := Newcomer(s.callers);
    StartIs(s, w, year);
    var t := Goto(s, w, Reading(year, ATTEMPTS));
    var u := TakesFrom(t, w, year, ATTEMPTS);
    steps := [Step(w, Start(year)), Step(w, Read), Step(w, Take(true))];
    ThreeSteps(s, steps);
  }

  lemma ThreeSteps(s: Ledger, steps: seq<Step>)
    requires |steps| == 3
    ensures Run(Next, s, steps) == Next(Next(Next(s, steps[0]), steps[1]), steps[2])
  {
    hide Next;
    assert steps == [steps[0]] + [steps[1]] + [steps[2]];
    RunOne(Next, s, steps[0]);
    RunAppend(Next, s, [steps[0]], [steps[1]]);
    RunOne(Next, Next(s, steps[0]), steps[1]);
    RunAppend(Next, s, [steps[0]] + [steps[1]], [steps[2]]);
    RunOne(Next, Next(Next(s, steps[0]), steps[1]), steps[2]);
  }

  /** A read and a batch in a year that is free, undisturbed: the next number is taken. */
  lemma TakesFrom(s: Ledger, w: nat, year: int, tries: nat) returns (t: Ledger)
    requires At(s, w) == Reading(year, tries) && Free(s.book, year)
    ensures t == Next(Next(s, Step(w, Read)), Step(w, Take(true)))
    ensures var n := Invoice(year, Counter(s.book, year) + 1);
      && At(t, w) == Done(n) && HasCounter(t.book, year) && Counter(t.book, year) == n.sequence
      && (forall m: Invoice :: Reserved(t.book, m) <==> Reserved(s.book, m) || m == n)
      && t.taken == s.taken && (forall v: nat :: v != w ==> At(t, v) == At(s, v))
  {
    hide Batch, Admits;
    var n := Invoice(year, Counter(s.book, year) + 1);
    var t1 := Next(s, Step(w, Read));
    assert t1.book == s.book && At(t1, w) == Taking(n, CounterTag(s.book, year), tries);
    t := Next(t1, Step(w, Take(true)));
    WhatIsAdmitted(s.book);
    BatchContents(s.book, TakeWrites(n, CounterTag(s.book, year)));
  }

  /** A counter is created, undisturbed, at the cost of an attempt. */
  lemma OpensFrom(s: Ledger, w: nat, year: int, tries: nat) returns (t: Ledger)
    requires At(s, w) == Reading(year, tries) && tries > 1 && CounterId(year) !in s.book.docs
    ensures t == Next(Next(s, Step(w, Read)), Step(w, Open(true)))
    ensures At(t, w) == Reading(year, tries - 1) && HasCounter(t.book, year) && Counter(t.book, year) == 0
    ensures (forall m: Invoice :: Reserved(t.book, m) <==> Reserved(s.book, m)) && (forall v: nat :: v != w ==> At(t, v) == At(s, v))
  {
    hide Batch, Admits;
    var t1 := Next(s, Step(w, Read));
    t := Next(t1, Step(w, Open(true)));
    WhatIsAdmitted(s.book);
    BatchContents(s.book, OpenWrites(year));
    assert CounterId(year) in OpenWrites(year);
  }

  // ---------------------------------------------------------------- what a call can still get

  /** A call under way in a year that has a counter can still be granted a number. */
  predicate Prospects(p: Book, c: Position) {
    match c
    case Reading(year, _) => Free(p, year)
    case Opening(year, tries) => Free(p, year) && tries >= 2
    case Taking(n, etag, tries) => Free(p, n.year) && (tries >= 2 || CounterTag(p, n.year) == etag)
    case Done(_) => true
    case _ => false
  }

  /** What a call is under way for is a number of this year. */
  predicate Within(c: Position, year: int) {
    match c
    case Reading(y, _) => y == year
    case Opening(y, _) => y == year
    case Taking(n, _, _) => n.year == year
    case Done(n) => n.year == year
    case _ => true
  }

  /** Prospects only fade: no step of anyone restores them. */
  lemma ProspectsFade(s: Ledger, step: Step, v: nat, year: int)
    requires Inv(s) && HasCounter(s.book, year) && Within(At(s, v), year) && !Prospects(s.book, At(s, v))
    requires step.caller == v ==> step.act.Read? || step.act.Open? || step.act.Take? || step.act.Crash?
    ensures var t := Next(s, step); HasCounter(t.book, year) && Within(At(t, v), year) && !Prospects(t.book, At(t, v))
  {
    hide Inv, Next, Free, Later, Admits;
    NextKeeps(s, step);
    CountersLater(s, Next(s, step), year);
    if Blocked(s.book, year) {
      StepKeepsBlocked(s, step, year);
      BlockedRefuses(s, v, year);
    } else if At(s, v).Taking? {
      StaleStays(s, step, v);
    }
    if step.caller == v {
      OwnStepFades(s, step, v, year);
    } else {
      OtherLeavesMe(s, v, step);
    }
  }

  lemma CountersLater(s: Ledger, t: Ledger, year: int)
    requires Later(s, t) && HasCounter(s.book, year)
    ensures HasCounter(t.book, year)
  {
  }

  /** A tag that was overtaken is never current again. */
  lemma StaleStays(s: Ledger, step: Step, v: nat)
    requires Inv(s) && At(s, v).Taking? && HasCounter(s.book, At(s, v).invoice.year) && CounterTag(s.book, At(s, v).invoice.year) != At(s, v).etag
    ensures var t, y := Next(s, step), At(s, v).invoice.year; HasCounter(t.book, y) && CounterTag(t.book, y) != At(s, v).etag
  {
    hide Inv, Batch, Admits, TakeWrites, OpenWrites, ReserveWrites, PositionOk, Later, Reserved;
    var w, p := step.caller, At(s, step.caller);
    CallerOk(s, w);
    OldTag(s, v);
    if step.act.Take? && p.Taking? && Admits(s.book, TakeWrites(p.invoice, p.etag)) {
      TakeEffect(s, w, p);
    } else if step.act.Open? && p.Opening? && Admits(s.book, OpenWrites(p.year)) {
      OpenEffect(s, p.year);
    } else if step.act.Reserve? && p.Idle? && Admits(s.book, ReserveWrites(step.act.invoice)) {
      ReserveEffect(s, w, step.act.invoice);
    }
  }

  lemma OldTag(s: Ledger, v: nat)
    requires Inv(s) && At(s, v).Taking?
    ensures At(s, v).etag < s.book.clock
  {
    assert PositionOk(s, v, At(s, v));
  }

  lemma OwnStepFades(s: Ledger, step: Step, v: nat, year: int)
    requires HasCounter(s.book, year) && Within(At(s, v), year) && !Prospects(s.book, At(s, v)) && step.caller == v
    requires step.act.Read? || step.act.Open? || step.act.Take? || step.act.Crash?
    requires At(s, v).Taking? && Blocked(s.book, year) ==> !Admits(s.book, TakeWrites(At(s, v).invoice, At(s, v).etag))
    requires Blocked(s.book, year) ==> Blocked(Next(s, step).book, year)
    ensures Within(At(Next(s, step), v), year) && !Prospects(Next(s, step).book, At(Next(s, step), v))
  {
    hide Batch, Admits;
    WhatIsAdmitted(s.book);
  }

  /** With prospects, an opened or taking call holds its number or reads again. */
  lemma RoundGoesOn(s: Ledger, w: nat)
    requires Inv(s) && (At(s, w).Opening? || At(s, w).Taking?) && Prospects(s.book, At(s, w))
    ensures var p := At(s, w); var t := Next(s, Step(w, if p.Opening? then Open(true) else Take(true))); var r := At(t, w);
      r.Done? || (r.Reading? && Free(t.book, r.year))
  {
    hide Inv, Batch, Admits;
    CallerOk(s, w);
    WhatIsAdmitted(s.book);
  }

  // ---------------------------------------------------------------- one caller's loop

  type Interference = nat -> seq<Step>

  ghost predicate LeavesMeAlone(me: nat, env: Interference) {
    forall n: nat, i :: 0 <= i < |env(n)| ==> env(n)[i].caller != me
  }

  /** The numbers a caller was granted, in that order. */
  function GrantsOf(grants: seq<Grant>, me: nat): seq<Invoice> {
    if grants == [] then []
    else GrantsOf(grants[..|grants| - 1], me) + if grants[|grants| - 1].caller == me then [grants[|grants| - 1].invoice] else []
  }

  lemma {:induction false} OthersLeaveMe(s: Ledger, me: nat, steps: seq<Step>)
    requires forall i :: 0 <= i < |steps| ==> steps[i].caller != me
    ensures At(Run(Next, s, steps), me) == At(s, me)
    ensures GrantsOf(Run(Next, s, steps).grants, me) == GrantsOf(s.grants, me)
  {
    if steps != [] {
      OthersLeaveMe(s, me, steps[..|steps| - 1]);
      OtherLeavesMe(Run(Next, s, steps[..|steps| - 1]), me, steps[|steps| - 1]);
    }
  }

  lemma OtherLeavesMe(s: Ledger, me: nat, step: Step)
    requires step.caller != me
    ensures At(Next(s, step), me) == At(s, me)
    ensures GrantsOf(Next(s, step).grants, me) == GrantsOf(s.grants, me)
  {
    var t := Next(s, step);
    if t.grants != s.grants {
      assert t.grants[..|t.grants| - 1] == s.grants;
    }
  }

  lemma NoSteps(s: Ledger)
    ensures Run(Next, s, []) == s
  {
  }

  lemma GrantedOnce(grants: seq<Grant>, me: nat, invoice: Invoice)
    ensures GrantsOf(grants + [Grant(me, invoice)], me) == GrantsOf(grants, me) + [invoice]
  {
    assert (grants + [Grant(me, invoice)])[..|grants|] == grants;
  }

  lemma BlockedHere(s: Ledger, before: seq<Step>, t: Ledger, others: seq<Step>, u: Ledger, me: nat, year: int)
    requires Inv(s) && Blocked(s.book, year) && t == Run(Next, s, before) && u == Run(Next, t, others)
    ensures At(u, me).Taking? && At(u, me).invoice.year == year ==> !Admits(u.book, TakeWrites(At(u, me).invoice, At(u, me).etag))
  {
    hide Inv, Next, Run, Blocked, Admits;
    BlockedStays(s, before, year);
    BlockedStays(t, others, year);
    BlockedRefuses(u, me, year);
  }

  class Allocator {
    var book: Book
    var callers: map<nat, Position>
    var grants: seq<Grant>
    var taken: set<Invoice>

    constructor ()
      ensures State() == NEW_LEDGER
    {
      book, callers, grants, taken := Partition(map[], 0), map[], [], {};
    }

    function State(): Ledger
      reads this
    {
      Ledger(book, callers, grants, taken)
    }

    method Await(me: nat, others: seq<Step>)
      requires forall i :: 0 <= i < |others| ==> others[i].caller != me
      modifies this
      ensures State() == Run(Next, old(State()), others)
      ensures At(State(), me) == old(At(State(), me))
      ensures GrantsOf(grants, me) == old(GrantsOf(grants, me))
    {
      OthersLeaveMe(State(), me, others);
      var s := Run(Next, State(), others);
      book, callers, grants, taken := s.book, s.callers, s.grants, s.taken;
    }

    /** `allocate_next_invoice`: at most five attempts, each a read and a batch. A call that gives
        up on contention was granted nothing; one that returns was granted exactly its number. */
    method AllocateNextInvoice(me: nat, year: int, acked: nat -> bool, env: Interference)
      returns (r: Result<Invoice, Failure>, ghost trace: seq<Step>)
      requires LeavesMeAlone(me, env) && At(State(), me) == Idle
      modifies this
      ensures State() == Run(Next, old(State()), trace)
      ensures At(State(), me) == match r case Ok(n) => Done(n) case Err(e) => GaveUp(e)
      ensures r.Ok? ==> r.value.year == year && GrantsOf(grants, me) == old(GrantsOf(grants, me)) + [r.value]
      ensures r == Err(ConflictRaised) ==> GrantsOf(grants, me) == old(GrantsOf(grants, me))
      ensures old(Inv(State()) && Blocked(book, year)) ==> r.Err? && GrantsOf(grants, me) == old(GrantsOf(grants, me))
    {
      hide Next, Run, Admits, Batch, GrantsOf, Inv, Blocked;
      ghost var s0 := State();
      StartIs(s0, me, year);
      NoSteps(s0);
      RunExtend(Next, s0, s0, [], [], s0, Step(me, Start(year)));
      trace := [] + [] + [Step(me, Start(year))];
      callers := callers[me := Reading(year, ATTEMPTS)];
      for attempt := 0 to ATTEMPTS
        invariant At(State(), me) == if attempt < ATTEMPTS then Reading(year, ATTEMPTS - attempt) else GaveUp(ConflictRaised)
        invariant State() == Run(Next, s0, trace)
        invariant GrantsOf(grants, me) == old(GrantsOf(grants, me))
      {
        var end;
        end, trace := Attempt(me, year, ATTEMPTS - attempt, acked(attempt), env, 2 * attempt, s0, trace);
        if end.Some? {
          return end.value, trace;
        }
      }
      r := Err(ConflictRaised);
    }

    /** One round of the loop; None where it goes on to the next. */
    method Attempt(me: nat, year: int, tries: nat, acked: bool, env: Interference, tick: nat, ghost s0: Ledger, ghost prior: seq<Step>)
      returns (end: Option<Result<Invoice, Failure>>, ghost trace: seq<Step>)
      requires LeavesMeAlone(me, env) && tries > 0
      requires At(State(), me) == Reading(year, tries) && State() == Run(Next, s0, prior)
      modifies this
      ensures State() == Run(Next, s0, trace)
      ensures At(State(), me) == match end
                                 case None => if tries == 1 then GaveUp(ConflictRaised) else Reading(year, tries - 1)
                                 case Some(Ok(n)) => Done(n)
                                 case Some(Err(e)) => GaveUp(e)
      ensures end.Some? && end.value.Ok? ==> end.value.value.year == year
      ensures end.None? || end == Some(Err(ConflictRaised)) ==> GrantsOf(grants, me) == old(GrantsOf(grants, me))
      ensures end.Some? && end.value.Ok? ==> GrantsOf(grants, me) == old(GrantsOf(grants, me)) + [end.value.value]
      ensures Inv(s0) && Blocked(s0.book, year) ==> GrantsOf(grants, me) == old(GrantsOf(grants, me)) && (end.Some? ==> end.value.Err?)
    {
      hide Next, Run, Admits, Batch, GrantsOf, Inv, Blocked;
      ghost var s1 := State();
      Await(me, env(tick));
      ghost var s2 := State();
      ReadIs(s2, me);
      RunExtend(Next, s0, s1, prior, env(tick), s2, Step(me, Read));
      trace := prior + env(tick) + [Step(me, Read)];
      if !HasCounter(book, year) {
        callers := callers[me := Opening(year, tries)];
        end, trace := OpenCounter(me, year, tries, acked, env, tick + 1, s0, trace);
        return;
      }
      var sequence := book.docs[CounterId(year)].body.value + 1;
      if sequence > 99999 {
        callers := callers[me := GaveUp(ConflictRaised)];
        return Some(Err(ConflictRaised)), trace;
      }
      var invoice, etag := Invoice(year, sequence), book.docs[CounterId(year)].etag;
      callers := callers[me := Taking(invoice, etag, tries)];
      ghost var s3 := State();
      Await(me, env(tick + 1));
      ghost var s4 := State();
      TakeIs(s4, me, acked);
      RunExtend(Next, s0, s3, trace, env(tick + 1), s4, Step(me, Take(acked)));
      trace := trace + env(tick + 1) + [Step(me, Take(acked))];
      if Inv(s0) && Blocked(s0.book, year) {
        BlockedHere(s0, prior + env(tick) + [Step(me, Read)], s3, env(tick + 1), s4, me, year);
      }
      if !Admits(book, TakeWrites(invoice, etag)) {
        callers := callers[me := if tries == 1 then GaveUp(ConflictRaised) else Reading(year, tries - 1)];
        return None, trace;
      }
      GrantedOnce(grants, me, invoice);
      book := Batch(book, TakeWrites(invoice, etag));
      grants := grants + [Grant(me, invoice)];
      callers := callers[me := if acked then Done(invoice) else GaveUp(ErrorRaised)];
      return Some(if acked then Ok(invoice) else Err(ErrorRaised)), trace;
    }

    method OpenCounter(me: nat, year: int, tries: nat, acked: bool, env: Interference, tick: nat, ghost s0: Ledger, ghost prior: seq<Step>)
      returns (end: Option<Result<Invoice, Failure>>, ghost trace: seq<Step>)
      requires LeavesMeAlone(me, env) && tries > 0
      requires At(State(), me) == Opening(year, tries) && State() == Run(Next, s0, prior)
      modifies this
      ensures State() == Run(Next, s0, trace)
      ensures end.None? || end == Some(Err(ErrorRaised))
      ensures At(State(), me) == if end.Some? then GaveUp(ErrorRaised) else if tries == 1 then GaveUp(ConflictRaised) else Reading(year, tries - 1)
      ensures GrantsOf(grants, me) == old(GrantsOf(grants, me))
    {
      hide Next, Run, Admits, Batch, GrantsOf;
      ghost var s1 := State();
      Await(me, env(tick));
      ghost var s2 := State();
      OpenIs(s2, me, acked);
      RunExtend(Next, s0, s1, prior, env(tick), s2, Step(me, Open(acked)));
      trace := prior + env(tick) + [Step(me, Open(acked))];
      if Admits(book, OpenWrites(year)) {
        book := Batch(book, OpenWrites(year));
        if !acked {
          callers := callers[me := GaveUp(ErrorRaised)];
          return Some(Err(ErrorRaised)), trace;
        }
      }
      callers := callers[me := if tries == 1 then GaveUp(ConflictRaised) else Reading(year, tries - 1)];
      return None, trace;
    }
  }

  lemma StartIs(s: Ledger, me: nat, year: int)
    requires At(s, me).Idle?
    ensures Next(s, Step(me, Start(year))) == Goto(s, me, Reading(year, ATTEMPTS))
  {
  }

  lemma ReadIs(s: Ledger, me: nat)
    requires At(s, me).Reading?
    ensures Next(s, Step(me, Read)) == NextRead(s, me, At(s, me))
  {
  }

  lemma OpenIs(s: Ledger, me: nat, acked: bool)
    requires At(s, me).Opening?
    ensures Next(s, Step(me, Open(acked))) == NextOpen(s, me, At(s, me), acked)
  {
  }

  lemma TakeIs(s: Ledger, me: nat, acked: bool)
    requires At(s, me).Taking?
    ensures Next(s, Step(me, Take(acked))) == NextTake(s, me, At(s, me), acked)
  {
  }
}
