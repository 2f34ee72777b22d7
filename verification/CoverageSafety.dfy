/** What every run of the renewal machine keeps. */
module CoverageSafety {
  import opened Results
  import opened CoverageRecords
  import opened CoverageRenewal
  import opened DocumentStore
  import opened Traces
  import Invoices = InvoiceAllocator

  // ---------------------------------------------------------------- records

  ghost predicate OperationsOk(c: Config, r: Record) {
    && r.operations.Some? && r.package.Some? && r.hash.Some?
    && var d := r.operations.value;
    && d.request == r.request && d.version == r.package.value.version && d.hash == r.hash.value
    && SamePerson(d.actor, c.operations) && Reasoned(d.verdict, d.reason)
    && (d.verdict.Reject? <==> r.state.OperationsRejected?)
  }

  ghost predicate ManagerOk(c: Config, r: Record) {
    && r.manager.Some? && r.operations.Some? && r.package.Some? && r.hash.Some?
    && var d, o := r.manager.value, r.operations.value;
    && d.request == r.request && d.version == r.package.value.version && d.hash == r.hash.value
    && d.operationsId == o.id && d.operationsNote == o.note
    && SamePerson(d.actor, c.manager) && !SamePerson(d.actor, o.actor) && Reasoned(d.verdict, d.reason)
    && (d.verdict.Reject? <==> r.state.ManagerRejected?)
  }

  /** A package drafted for this record: twelve months, first version. */
  predicate DraftedFor(r: Record, p: Package) {
    p.request == r.request && p.version == 1 && p.customer == r.customer && p.equipment == r.equipment && p.months == 12
  }

  /** A stored record: its package under its own hash, its decisions bound to both, and past the
      final gate only with both approvals. */
  ghost predicate RecordOk(c: Config, r: Record) {
    && Consistent(r)
    && (r.package.Some? ==> r.hash == Some(PackageHash(r.package.value)) && DraftedFor(r, r.package.value))
    && (r.state.PackageDrafted? || Presented(r.state) ==> r.package.Some?)
    && (r.operations.Some? <==> OperationsDecided(r.state)) && (r.operations.Some? ==> OperationsOk(c, r))
    && (r.manager.Some? <==> ManagerDecided(r.state)) && (r.manager.Some? ==> ManagerOk(c, r))
    && (Launched(r.state) ==> Authorized(r))
  }

  predicate StepOk(a: RenewalState, b: RenewalState) {
    CanTransition(a, b) || (a.ExecutionFailed? && b.Completed?)
  }

  /** One commit. */
  ghost predicate Evolves(a: Record, b: Record) {
    && b.request == a.request && b.customer == a.customer && b.equipment == a.equipment
    && b.revision == a.revision + 1 && StepOk(a.state, b.state)
    && (b.package != a.package || b.hash != a.hash ==> b.state.PackageDrafted?)
    && (a.operations.Some? ==> b.package == a.package && b.hash == a.hash && b.operations == a.operations)
    && (a.manager.Some? ==> b.manager == a.manager)
  }

  /** Any number of commits. */
  ghost predicate RecordLater(c: Config, a: Record, b: Record) {
    && b.request == a.request && b.customer == a.customer && b.equipment == a.equipment
    && a.revision <= b.revision && (a.revision == b.revision ==> a == b)
    && (a.operations.Some? ==> b.package == a.package && b.hash == a.hash && b.operations == a.operations)
    && (a.manager.Some? ==> b.manager == a.manager)
    && (Launched(a.state) ==> Launched(b.state))
    && (a.state.Completed? ==> b == a)
    && (!c.redriven && a.package.Some? ==> b.package == a.package && b.hash == a.hash)
  }

  // ---------------------------------------------------------------- documents

  predicate HasEvent(s: System, q: nat, n: nat) {
    EventId(q, n) in s.docs.docs && s.docs.docs[EventId(q, n)].body.EventDoc?
  }

  function EventState(s: System, q: nat, n: nat): RenewalState
    requires HasEvent(s, q, n)
  {
    s.docs.docs[EventId(q, n)].body.state
  }

  ghost predicate AuditOk(s: System, q: nat)
    requires HasRecord(s, q)
  {
    var rev := Rec(s, q).revision;
    && (forall n: nat :: EventId(q, n) in s.docs.docs <==> n <= rev)
    && (forall n: nat :: n <= rev ==> HasEvent(s, q, n))
    && EventState(s, q, 0).CustomerRequested? && EventState(s, q, rev) == Rec(s, q).state
    && (forall n: nat, m: nat :: m == n + 1 <= rev ==> StepOk(EventState(s, q, n), EventState(s, q, m)))
  }

  /** Documents are of their kinds, and events and receipts belong to a record. */
  ghost predicate Filed(s: System) {
    && Tagged(s.docs)
    && (forall q: nat :: RecordId(q) in s.docs.docs ==> HasRecord(s, q) && Rec(s, q).request == q && RecordOk(s.config, Rec(s, q)))
    && (forall q: nat, n: nat :: EventId(q, n) in s.docs.docs ==> HasRecord(s, q))
    && (forall q: nat :: HasRecord(s, q) ==> AuditOk(s, q))
    && (forall q: nat :: ReceiptId(q) in s.docs.docs ==> HasReceipt(s, q))
  }

  ghost predicate Running(s: System, q: nat) {
    HasRecord(s, q) && Launched(Rec(s, q).state)
  }

  /** Both documents are rendered from the approved package, as of the approval, under one
      number of the approval's year. */
  ghost predicate DrawnFrom(r: Record, payload: Payload) {
    && r.package.Some? && r.manager.Some? && payload.invoice.year == r.manager.value.year
    && payload.certificate.bytes
         == Bytes(Certificate, r.package.value, r.manager.value.at, payload.invoice, payload.certificate.bytes.customerName)
    && payload.invoicePdf.bytes
         == Bytes(InvoicePdf, r.package.value, r.manager.value.at, payload.invoice, payload.invoicePdf.bytes.customerName)
  }

  ghost predicate Blob(s: System, q: nat, kind: Kind, payload: Payload) {
    var id := BlobId(q, kind, payload.invoice);
    id in s.blobs && s.blobs[id] == DigestOf(payload, kind).bytes
  }

  ghost predicate Claimed(s: System, invoice: Invoices.Invoice, q: nat) {
    invoice in s.claims && s.claims[invoice] == q
  }

  /** A receipt belongs to a launched renewal, its number was allocated for it, and both its
      documents are stored. */
  ghost predicate ReceiptOk(s: System, q: nat)
    requires HasReceipt(s, q)
  {
    var payload := ReceiptOf(s, q);
    && Running(s, q) && DrawnFrom(Rec(s, q), payload) && Claimed(s, payload.invoice, q)
    && Blob(s, q, Certificate, payload) && Blob(s, q, InvoicePdf, payload)
  }

  ghost predicate Receipts(s: System) {
    && (forall q: nat :: HasReceipt(s, q) ==> ReceiptOk(s, q))
    && (forall q: nat :: HasRecord(s, q) && Rec(s, q).state.Completed? ==> HasReceipt(s, q))
  }

  /** Numbers are handed out once, and blobs exist only under handed-out numbers. */
  ghost predicate Numbers(s: System) {
    && Invoices.Inv(s.book)
    && s.claims.Keys <= s.book.taken
    && (forall id :: id in s.blobs ==> id.invoice in s.claims)
  }

  ghost predicate BuiltOk(s: System) {
    !s.config.redriven ==> forall i :: 0 <= i < |s.built| ==> s.built[i].restated == s.built[i].recorded
  }

  /** Every stored decision was built from a reviewer's command. */
  ghost predicate DecisionsBuilt(s: System) {
    forall q: nat :: HasRecord(s, q) ==> RecordBuilt(s.built, Rec(s, q))
  }

  ghost predicate RecordBuilt(built: seq<Built>, r: Record) {
    && (r.operations.Some? ==> WasBuilt(built, r.request, r.operations.value.id, r.operations.value.hash))
    && (r.manager.Some? ==> WasBuilt(built, r.request, r.manager.value.id, r.manager.value.hash))
  }

  ghost predicate WasBuilt(built: seq<Built>, q: nat, id: nat, hash: PackageHash) {
    exists i :: 0 <= i < |built| && built[i].q == q && built[i].id == id && built[i].recorded == hash
  }

  // ---------------------------------------------------------------- callers

  /** A record as read: it is the stored one as long as the tag is. */
  ghost predicate SnapOk(s: System, r: Record, etag: nat) {
    && HasRecord(s, r.request) && RecordOk(s.config, r) && RecordLater(s.config, r, Rec(s, r.request))
    && etag < s.docs.clock && (TagOf(s, r.request) == etag ==> Rec(s, r.request) == r)
    && RecordBuilt(s.built, r)
  }

  /** The record the executor works from: its package and approvals are the stored ones. */
  ghost predicate Frozen(s: System, r: Record) {
    && Running(s, r.request) && RecordOk(s.config, r) && Launched(r.state)
    && Rec(s, r.request).package == r.package && Rec(s, r.request).manager == r.manager
  }

  predicate Finished(s: System, q: nat) {
    HasRecord(s, q) && Rec(s, q).state.Completed?
  }

  ghost predicate Drawn(s: System, q: nat, payload: Payload) {
    Running(s, q) && DrawnFrom(Rec(s, q), payload)
  }

  ghost predicate Issued(s: System, q: nat, payload: Payload) {
    HasReceipt(s, q) && ReceiptOf(s, q) == payload
  }

  ghost predicate Restated(s: System, q: nat, c: Command) {
    !s.config.redriven ==> HasRecord(s, q) && Rec(s, q).package.Some? && Rec(s, q).hash == Some(c.hash)
  }

  /** Where a commit leads. */
  ghost predicate LeadsTo(s: System, updated: Record, done: Position) {
    && (updated.state.Completed? <==> done.Returned?)
    && match done
       case Idle => true
       case Investigating(q) => q == updated.request
       case Drafting(q, package) => q == updated.request && DraftedFor(updated, package)
       case Presenting(q) => q == updated.request
       case Escalating(_) => true
       case Launching(_) => true
       case Returned(q, payload) => q == updated.request && Issued(s, q, payload)
       case _ => false
  }

  ghost predicate PositionOk(s: System, p: Position) {
    match p
    case Drafting(q, package) => HasRecord(s, q) && DraftedFor(Rec(s, q), package)
    case OperationsDeciding(q, _, c) => Restated(s, q, c)
    case ManagerDeciding(q, _, c) => Restated(s, q, c)
    case Checking(r) => Frozen(s, r)
    case Allocating(r) => Frozen(s, r)
    case Rendering(r, n) => Frozen(s, r) && Claimed(s, n, r.request) && r.manager.Some? && n.year == r.manager.value.year
    case StoringCertificate(q, payload) => Drawn(s, q, payload) && Claimed(s, payload.invoice, q)
    case StoringInvoice(q, payload) => Drawn(s, q, payload) && Claimed(s, payload.invoice, q) && Blob(s, q, Certificate, payload)
    case Issuing(q, payload) =>
      && Drawn(s, q, payload) && Claimed(s, payload.invoice, q)
      && Blob(s, q, Certificate, payload) && Blob(s, q, InvoicePdf, payload)
    case Completing(q, payload) => Issued(s, q, payload)
    case Returned(q, payload) => Issued(s, q, payload)
    case Admitted(q, customer, _) => Finished(s, q) && Rec(s, q).customer == customer
    case LookingUp(q, customer, _, completed) => completed && Finished(s, q) && Rec(s, q).customer == customer
    case Fetching(q, customer, _, payload) => Issued(s, q, payload) && Finished(s, q) && Rec(s, q).customer == customer
    case Served(q, customer, kind, bytes) =>
      HasReceipt(s, q) && Digest(bytes) == DigestOf(ReceiptOf(s, q), kind) && Finished(s, q) && Rec(s, q).customer == customer
    case Corrupted(_, _, _) => false
    case Committing(prior, updated, etag, done) =>
      && SnapOk(s, prior, etag) && RecordOk(s.config, updated) && Evolves(prior, updated)
      && RecordBuilt(s.built, updated) && LeadsTo(s, updated, done)
      && (updated.state.PackageDrafted? ==> done.Presenting?)
    case _ => true
  }

  /** The callers that hold an invoice number. */
  predicate Carries(p: Position) {
    p.Rendering? || p.StoringCertificate? || p.StoringInvoice? || p.Issuing?
  }

  function NumberOf(p: Position): Invoices.Invoice
    requires Carries(p)
  {
    if p.Rendering? then p.invoice else p.payload.invoice
  }

  /** No blob carries the number yet, except the certificate the caller itself has stored. */
  ghost predicate Unwritten(s: System, p: Position) {
    && (p.Rendering? || p.StoringCertificate? ==> forall id :: id in s.blobs ==> id.invoice != NumberOf(p))
    && (p.StoringInvoice? ==> BlobId(p.q, InvoicePdf, p.payload.invoice) !in s.blobs)
  }

  ghost predicate Carriers(s: System) {
    && (forall w, v :: w in s.callers && v in s.callers && w != v && Carries(s.callers[w]) && Carries(s.callers[v])
          ==> NumberOf(s.callers[w]) != NumberOf(s.callers[v]))
    && (forall w :: w in s.callers ==> Unwritten(s, s.callers[w]))
  }

  /** The one caller that may complete a renewal: the one that stored its receipt. */
  function Finishes(p: Position): Option<nat> {
    if p.Completing? then Some(p.q) else if p.Committing? && p.done.Returned? then Some(p.done.q) else None
  }

  ghost predicate Finishers(s: System) {
    && (forall w, v :: w in s.callers && v in s.callers && w != v && Finishes(s.callers[w]).Some? && Finishes(s.callers[v]).Some?
          ==> Finishes(s.callers[w]) != Finishes(s.callers[v]))
    && (forall w :: w in s.callers && Finishes(s.callers[w]).Some? ==>
          var q := Finishes(s.callers[w]).value; HasRecord(s, q) && !Rec(s, q).state.Completed?)
  }

  /** The caller that takes a new request through to its package. */
  function Drives(p: Position): Option<nat> {
    if p.Beginning? || p.Investigating? || p.Verifying? || p.Drafting? then Some(p.q)
    else if p.Committing? && (p.done.Investigating? || p.done.Drafting? || p.done.Presenting?) then Some(p.done.q)
    else None
  }

  ghost predicate Drivers(s: System) {
    !s.config.redriven ==>
      && (forall w, v :: w in s.callers && v in s.callers && w != v && Drives(s.callers[w]).Some? && Drives(s.callers[v]).Some?
            ==> Drives(s.callers[w]) != Drives(s.callers[v]))
      && (forall w :: w in s.callers && Drives(s.callers[w]).Some? ==>
            var q := Drives(s.callers[w]).value; HasRecord(s, q) && Rec(s, q).package.None?)
  }

  ghost predicate Callers(s: System) {
    forall w :: w in s.callers ==> PositionOk(s, s.callers[w])
  }

  /** A caller that is allocating does so in the year of the Manager's approval; any other has
      nothing open in the invoice book. */
  predicate Matches(p: Position, b: Invoices.Position) {
    if p.Allocating? then p.record.manager.Some? && Invoices.Within(b, p.record.manager.value.year) else b.Idle?
  }

  ghost predicate Bookkeeping(s: System) {
    forall w: nat :: Matches(At(s, w), Invoices.At(s.book, w))
  }

  ghost predicate Inv(s: System) {
    && Filed(s) && Receipts(s) && Numbers(s) && BuiltOk(s) && DecisionsBuilt(s)
    && Callers(s) && Carriers(s) && Finishers(s) && Drivers(s) && Bookkeeping(s)
  }

  // ---------------------------------------------------------------- growth

  /** What a later moment keeps of an earlier one. */
  ghost predicate Grown(s: System, t: System) {
    && t.config == s.config && s.docs.clock <= t.docs.clock
    && (forall q: nat :: HasRecord(s, q) ==>
          && HasRecord(t, q) && RecordLater(s.config, Rec(s, q), Rec(t, q))
          && ((TagOf(t, q) == TagOf(s, q) && Rec(t, q) == Rec(s, q)) || s.docs.clock <= TagOf(t, q)))
    && (forall q: nat :: HasReceipt(s, q) ==> HasReceipt(t, q) && ReceiptOf(t, q) == ReceiptOf(s, q))
    && (forall id :: id in s.blobs ==> id in t.blobs && t.blobs[id] == s.blobs[id])
    && (forall n :: n in s.claims ==> n in t.claims && t.claims[n] == s.claims[n])
    && (forall q: nat, n: nat :: HasEvent(s, q, n) ==> HasEvent(t, q, n) && EventState(t, q, n) == EventState(s, q, n))
    && s.built <= t.built
  }

  lemma RecordLaterComposes(c: Config, a: Record, b: Record, d: Record)
    requires RecordLater(c, a, b) && RecordLater(c, b, d)
    ensures RecordLater(c, a, d)
  {
  }

  lemma GrownComposes(s: System, t: System, u: System)
    requires Grown(s, t) && Grown(t, u)
    ensures Grown(s, u)
  {
    hide RecordLater;
    forall q: nat | HasRecord(s, q) ensures RecordLater(s.config, Rec(s, q), Rec(u, q)) {
      RecordLaterComposes(s.config, Rec(s, q), Rec(t, q), Rec(u, q));
    }
  }

  lemma GrownReflexive(s: System)
    ensures Grown(s, s)
  {
  }

  lemma BuiltStays(a: seq<Built>, b: seq<Built>, r: Record)
    requires a <= b && RecordBuilt(a, r)
    ensures RecordBuilt(b, r)
  {
    if r.operations.Some? {
      WasBuiltStays(a, b, r.request, r.operations.value.id, r.operations.value.hash);
    }
    if r.manager.Some? {
      WasBuiltStays(a, b, r.request, r.manager.value.id, r.manager.value.hash);
    }
  }

  lemma WasBuiltStays(a: seq<Built>, b: seq<Built>, q: nat, id: nat, hash: PackageHash)
    requires a <= b && WasBuilt(a, q, id, hash)
    ensures WasBuilt(b, q, id, hash)
  {
    var i :| 0 <= i < |a| && a[i].q == q && a[i].id == id && a[i].recorded == hash;
    assert b[i] == a[i];
  }

  lemma SnapStays(s: System, t: System, r: Record, etag: nat)
    requires Grown(s, t) && SnapOk(s, r, etag)
    ensures SnapOk(t, r, etag)
  {
    hide RecordLater, RecordOk, RecordBuilt;
    RecordLaterComposes(s.config, r, Rec(s, r.request), Rec(t, r.request));
    BuiltStays(s.built, t.built, r);
  }

  /** The package and the approvals of a running renewal are frozen. */
  lemma RunningStays(s: System, t: System, q: nat)
    requires Grown(s, t) && Filed(s) && Running(s, q)
    ensures Running(t, q) && Rec(t, q).package == Rec(s, q).package && Rec(t, q).manager == Rec(s, q).manager
  {
    assert RecordOk(s.config, Rec(s, q));
  }

  lemma PositionStays(s: System, t: System, p: Position)
    requires Grown(s, t) && Filed(s) && PositionOk(s, p)
    ensures PositionOk(t, p)
  {
    hide Filed, RecordOk, SnapOk, Evolves, RecordBuilt, StepOk, Frozen, Drawn, Blob;
    if Executes(p) {
      ProducingStays(s, t, p);
    } else if p.Committing? {
      SnapStays(s, t, p.prior, p.etag);
      BuiltStays(s.built, t.built, p.updated);
    }
  }

  /** The callers of an execution before its receipt. */
  predicate Executes(p: Position) {
    p.Checking? || p.Allocating? || Carries(p)
  }

  lemma ProducingStays(s: System, t: System, p: Position)
    requires Grown(s, t) && Filed(s) && PositionOk(s, p) && Executes(p)
    ensures PositionOk(t, p)
  {
    hide Filed, RecordOk, RecordLater;
    RunningStays(s, t, if p.Checking? || p.Allocating? || p.Rendering? then p.record.request else p.q);
  }

  // ---------------------------------------------------------------- a caller moves, documents stay

  /** Documents, blobs and claims are the same. */
  predicate SameStores(s: System, t: System) {
    t.config == s.config && t.docs == s.docs && t.blobs == s.blobs && t.claims == s.claims
  }

  lemma SameStoresKeep(s: System, t: System)
    requires SameStores(s, t) && s.built <= t.built
    ensures Grown(s, t)
    ensures Filed(s) ==> Filed(t)
    ensures Receipts(s) ==> Receipts(t)
    ensures Filed(s) && DecisionsBuilt(s) ==> DecisionsBuilt(t)
  {
    SameStoresFile(s, t);
    SameStoresReceipts(s, t);
    hide RecordOk, RecordBuilt, Filed, AuditOk;
    forall q: nat | DecisionsBuilt(s) && HasRecord(t, q) ensures RecordBuilt(t.built, Rec(t, q)) {
      assert RecordBuilt(s.built, Rec(s, q));
      BuiltStays(s.built, t.built, Rec(s, q));
    }
  }

  lemma SameStoresFile(s: System, t: System)
    requires SameStores(s, t)
    ensures Filed(s) ==> Filed(t)
  {
    hide RecordOk, StepOk;
    if Filed(s) {
      forall q: nat | HasRecord(t, q) ensures AuditOk(t, q) {
        assert AuditOk(s, q);
        assert forall n: nat :: HasEvent(s, q, n) ==> HasEvent(t, q, n) && EventState(t, q, n) == EventState(s, q, n);
      }
    }
  }

  lemma SameStoresReceipts(s: System, t: System)
    requires SameStores(s, t)
    ensures Receipts(s) ==> Receipts(t)
  {
    hide DrawnFrom;
    if Receipts(s) {
      forall q: nat | HasReceipt(t, q) ensures ReceiptOk(t, q) {
        assert HasReceipt(s, q) && ReceiptOk(s, q);
      }
      forall q: nat | HasRecord(t, q) && Rec(t, q).state.Completed? ensures HasReceipt(t, q) {
        assert HasRecord(s, q) && HasReceipt(s, q);
      }
    }
  }

  /** What a caller may become without anyone else noticing. */
  ghost predicate Quiet(s: System, w: nat, p: Position) {
    && PositionOk(s, p) && Unwritten(s, p)
    && (Carries(p) ==> Carries(At(s, w)) && NumberOf(At(s, w)) == NumberOf(p))
    && (Finishes(p).Some? ==> Finishes(At(s, w)) == Finishes(p))
    && (Drives(p).Some? ==> Drives(At(s, w)) == Drives(p) || s.config.redriven)
    && !p.Allocating? && !At(s, w).Allocating?
  }

  lemma GotoKeeps(s: System, w: nat, p: Position)
    requires Inv(s) && Quiet(s, w, p)
    ensures Inv(Goto(s, w, p)) && Grown(s, Goto(s, w, p))
  {
    hide Filed, Receipts, DecisionsBuilt, PositionOk, Grown, Unwritten, Carriers, Finishers, Drivers;
    var t := Goto(s, w, p);
    SameStoresKeep(s, t);
    forall v | v in t.callers ensures PositionOk(t, t.callers[v]) {
      PositionStays(s, t, if v == w then p else s.callers[v]);
    }
    CarriersKeep(s, w, p);
    OthersKeep(s, w, p);
  }

  lemma CarriersKeep(s: System, w: nat, p: Position)
    requires Carriers(s) && Unwritten(s, p) && (Carries(p) ==> Carries(At(s, w)) && NumberOf(At(s, w)) == NumberOf(p))
    ensures Carriers(Goto(s, w, p))
  {
    hide Unwritten;
    var t := Goto(s, w, p);
    forall v | v in t.callers ensures Unwritten(t, t.callers[v]) {
      UnwrittenSame(s, t, if v == w then p else s.callers[v]);
    }
  }

  lemma OthersKeep(s: System, w: nat, p: Position)
    requires Finishers(s) && Drivers(s)
    requires Finishes(p).Some? ==> Finishes(At(s, w)) == Finishes(p)
    requires Drives(p).Some? ==> Drives(At(s, w)) == Drives(p) || s.config.redriven
    ensures Finishers(Goto(s, w, p)) && Drivers(Goto(s, w, p))
  {
  }

  lemma UnwrittenSame(s: System, t: System, p: Position)
    requires Unwritten(s, p) && t.blobs == s.blobs
    ensures Unwritten(t, p)
  {
  }

  predicate Plain(p: Position) {
    p.Idle? || p.Holding? || p.Presenting? || p.Escalating? || p.Authorizing? || p.Launching? || p.Retrying? || p.Failing?
  }

  lemma PlainKeeps(s: System, w: nat, p: Position)
    requires Inv(s) && Plain(p) && !At(s, w).Allocating?
    ensures Inv(Goto(s, w, p)) && Grown(s, Goto(s, w, p))
  {
    hide Inv, Grown;
    assert Quiet(s, w, p);
    GotoKeeps(s, w, p);
  }

  lemma CallerOk(s: System, w: nat)
    requires Inv(s)
    ensures PositionOk(s, At(s, w)) && Unwritten(s, At(s, w)) && (At(s, w).Idle? || w in s.callers)
  {
    hide PositionOk, Filed, Receipts, Numbers, DecisionsBuilt;
    IdleOk(s);
  }

  lemma IdleOk(s: System)
    ensures PositionOk(s, Idle) && Unwritten(s, Idle)
  {
  }

  lemma RecordFacts(s: System, q: nat)
    requires Inv(s) && HasRecord(s, q)
    ensures Rec(s, q).request == q && RecordOk(s.config, Rec(s, q)) && SnapOk(s, Rec(s, q), TagOf(s, q))
  {
    hide RecordOk, RecordBuilt, Callers, Carriers, Finishers, Drivers, Receipts, Numbers;
  }

  // ---------------------------------------------------------------- steps towards a commit

  /** A commit that only moves the state keeps what its record says. */
  lemma MoveOk(c: Config, r: Record, target: RenewalState)
    requires RecordOk(c, r) && CanTransition(r.state, target)
    requires target in {EvidenceAssembling, EvidenceHold, EligibilityVerified, AwaitingOperations, AwaitingManager, Executing, ExecutionFailed}
    requires target.Executing? ==> Authorized(r)
    ensures var u := r.(state := target, revision := r.revision + 1); RecordOk(c, u) && Evolves(r, u)
  {
  }

  lemma BuiltSame(built: seq<Built>, r: Record, u: Record)
    requires RecordBuilt(built, r) && u.operations == r.operations && u.manager == r.manager && u.request == r.request
    ensures RecordBuilt(built, u)
  {
  }

  lemma MovingKeeps(s: System, w: nat, q: nat, target: RenewalState, done: Position)
    requires Inv(s) && !At(s, w).Allocating?
    requires target in {EvidenceAssembling, EvidenceHold, EligibilityVerified, AwaitingOperations, AwaitingManager, Executing, ExecutionFailed}
    requires target.Executing? && HasRecord(s, q) ==> Authorized(Rec(s, q))
    requires HasRecord(s, q) ==> LeadsTo(s, Rec(s, q).(state := target), done)
    requires Drives(Committing(Rec0(s, q), Rec0(s, q), 0, done)).Some? ==>
      s.config.redriven || Drives(At(s, w)) == Drives(Committing(Rec0(s, q), Rec0(s, q), 0, done))
    requires !done.Returned?
    ensures Inv(Moving(s, w, q, target, done)) && Grown(s, Moving(s, w, q, target, done))
  {
    hide Inv, Grown, RecordOk, Evolves, SnapOk, RecordBuilt;
    PlainKeeps(s, w, Idle);
    if HasRecord(s, q) && CanTransition(Rec(s, q).state, target) {
      var r := Rec(s, q);
      RecordFacts(s, q);
      MoveOk(s.config, r, target);
      var u := r.(state := target, revision := r.revision + 1);
      SnapIsBuilt(s, r, TagOf(s, q));
      BuiltSame(s.built, r, u);
      assert LeadsTo(s, u, done);
      var p := Committing(r, u, TagOf(s, q), done);
      assert PositionOk(s, p);
      GotoKeeps(s, w, p);
    }
  }

  lemma SnapIsBuilt(s: System, r: Record, etag: nat)
    requires SnapOk(s, r, etag)
    ensures RecordBuilt(s.built, r)
  {
  }

  function Rec0(s: System, q: nat): Record {
    if HasRecord(s, q) then Rec(s, q) else Record(q, 0, CustomerRequested, 0, 0, None, None, None, None)
  }

  lemma BeginKeeps(s: System, w: nat, p: Position)
    requires Inv(s) && At(s, w) == p && p.Beginning?
    ensures Inv(NextBegin(s, w, p)) && Grown(s, NextBegin(s, w, p))
  {
    hide Inv, Grown, Moving;
    if HasRecord(s, p.q) { RecordFacts(s, p.q); }
    MovingKeeps(s, w, p.q, EvidenceAssembling, if p.driving then Investigating(p.q) else Idle);
  }

  lemma VerifyKeeps(s: System, w: nat, p: Position, finding: Finding)
    requires Inv(s) && At(s, w) == p && p.Verifying?
    ensures Inv(NextVerify(s, w, p, finding)) && Grown(s, NextVerify(s, w, p, finding))
  {
    hide Inv, Grown, Moving;
    PlainKeeps(s, w, Idle);
    MovingKeeps(s, w, p.q, EvidenceHold, Idle);
    if finding.Eligible? && HasRecord(s, p.q) {
      RecordFacts(s, p.q);
      var r := Rec(s, p.q);
      MovingKeeps(s, w, p.q, EligibilityVerified,
        if finding.content.None? then Idle
        else Drafting(p.q, Package(p.q, 1, r.customer, r.equipment, COVERAGE_MONTHS, finding.content.value)));
    }
  }

  lemma DraftOk(c: Config, r: Record, package: Package)
    requires RecordOk(c, r) && CanTransition(r.state, PackageDrafted) && DraftedFor(r, package)
    ensures var u := r.(package := Some(package), hash := Some(PackageHash(package)), state := PackageDrafted, revision := r.revision + 1);
      RecordOk(c, u) && Evolves(r, u)
  {
  }

  lemma DraftKeeps(s: System, w: nat, p: Position)
    requires Inv(s) && At(s, w) == p && p.Drafting? && PositionOk(s, p)
    ensures Inv(NextDraft(s, w, p)) && Grown(s, NextDraft(s, w, p))
  {
    hide Inv, Grown, RecordOk, Evolves, SnapOk, RecordBuilt;
    PlainKeeps(s, w, Idle);
    if HasRecord(s, p.q) && CanTransition(Rec(s, p.q).state, PackageDrafted) {
      var r := Rec(s, p.q);
      RecordFacts(s, p.q);
      DraftOk(s.config, r, p.package);
      var u := r.(package := Some(p.package), hash := Some(PackageHash(p.package)), state := PackageDrafted, revision := r.revision + 1);
      SnapIsBuilt(s, r, TagOf(s, p.q));
      BuiltSame(s.built, r, u);
      var next := Committing(r, u, TagOf(s, p.q), Presenting(p.q));
      assert PositionOk(s, next);
      GotoKeeps(s, w, next);
    }
  }

  lemma ReviewKeeps(s: System, w: nat, q: nat, actor: ObjectId, command: Command, byManager: bool)
    requires Inv(s) && At(s, w).Idle?
    ensures var t := NextReview(s, w, q, actor, command, byManager); Inv(t) && Grown(s, t)
  {
    hide Inv, Grown, Recorded;
    GrownReflexive(s);
    if HasRecord(s, q) && Restates(Rec(s, q), command) {
      var p := if byManager then ManagerDeciding(q, actor, command) else OperationsDeciding(q, actor, command);
      assert PositionOk(s, p);
      GotoKeeps(s, w, p);
    }
  }

  /** A decision is built: it goes on record with what the reviewer restated. */
  lemma BuildKeeps(s: System, b: Built)
    requires Inv(s) && (!s.config.redriven ==> b.restated == b.recorded)
    ensures var t := s.(built := s.built + [b]); Inv(t) && Grown(s, t) && t.built[|s.built|] == b
  {
    hide Filed, Receipts, DecisionsBuilt, PositionOk, Grown;
    var t := s.(built := s.built + [b]);
    SameStoresKeep(s, t);
    forall v | v in t.callers ensures PositionOk(t, t.callers[v]) {
      PositionStays(s, t, s.callers[v]);
    }
    CarriersSame(s, t);
  }

  lemma CarriersSame(s: System, t: System)
    requires Carriers(s) && t.callers == s.callers && t.blobs == s.blobs
    ensures Carriers(t)
  {
    hide Unwritten;
    forall v | v in t.callers ensures Unwritten(t, t.callers[v]) {
      UnwrittenSame(s, t, s.callers[v]);
    }
  }

  lemma OperationsDecisionOk(c: Config, r: Record, d: OperationsDecision)
    requires RecordOk(c, r) && r.state.AwaitingOperations? && r.package.Some? && r.hash.Some?
    requires d.request == r.request && d.version == r.package.value.version && d.hash == r.hash.value
    requires SamePerson(d.actor, c.operations) && Reasoned(d.verdict, d.reason)
    ensures var u := r.(operations := Some(d), state := if d.verdict.Approve? then OperationsApproved else OperationsRejected, revision := r.revision + 1);
      RecordOk(c, u) && Evolves(r, u) && CanTransition(r.state, u.state)
  {
  }

  lemma OperationsKeeps(s: System, w: nat, p: Position, now: int, id: nat)
    requires Inv(s) && At(s, w) == p && p.OperationsDeciding? && PositionOk(s, p)
    ensures Inv(NextOperations(s, w, p, now, id)) && Grown(s, NextOperations(s, w, p, now, id))
  {
    hide Inv, Grown, RecordOk, Evolves, SnapOk, RecordBuilt, WasBuilt;
    PlainKeeps(s, w, Idle);
    if HasRecord(s, p.q) {
      var r, c := Rec(s, p.q), p.command;
      if SamePerson(p.actor, s.config.operations) && r.state.AwaitingOperations? && r.package.Some? && r.hash.Some? && Reasoned(c.verdict, c.reason) {
        RecordFacts(s, p.q);
        var d := OperationsDecision(id, p.q, r.package.value.version, r.hash.value, p.actor, c.verdict, c.note, c.reason, now);
        OperationsDecisionOk(s.config, r, d);
        var u := r.(operations := Some(d), state := if d.verdict.Approve? then OperationsApproved else OperationsRejected, revision := r.revision + 1);
        var b := Built(p.q, id, c.hash, d.hash);
        BuildKeeps(s, b);
        var t := s.(built := s.built + [b]);
        RecordFacts(t, p.q);
        OperationsBuilt(t, r, TagOf(s, p.q), u, d);
        var next := Committing(r, u, TagOf(s, p.q), if c.verdict.Approve? then Escalating(p.q) else Idle);
        assert PositionOk(t, next);
        GotoKeeps(t, w, next);
        GrownComposes(s, t, NextOperations(s, w, p, now, id));
      }
    }
  }

  lemma OperationsBuilt(t: System, r: Record, etag: nat, u: Record, d: OperationsDecision)
    requires SnapOk(t, r, etag) && u.operations == Some(d) && u.manager == r.manager && u.request == r.request == d.request
    requires t.built != [] && t.built[|t.built| - 1].q == d.request && t.built[|t.built| - 1].id == d.id && t.built[|t.built| - 1].recorded == d.hash
    ensures RecordBuilt(t.built, u)
  {
    hide RecordLater, RecordOk;
    assert WasBuilt(t.built, d.request, d.id, d.hash);
  }

  lemma ManagerDecisionOk(c: Config, r: Record, d: ManagerDecision)
    requires RecordOk(c, r) && r.state.AwaitingManager? && r.package.Some? && r.hash.Some? && r.operations.Some?
    requires d.request == r.request && d.version == r.package.value.version && d.hash == r.hash.value
    requires d.operationsId == r.operations.value.id && d.operationsNote == r.operations.value.note
    requires SamePerson(d.actor, c.manager) && !SamePerson(d.actor, r.operations.value.actor) && Reasoned(d.verdict, d.reason)
    ensures var u := r.(manager := Some(d), state := if d.verdict.Approve? then ManagerApproved else ManagerRejected, revision := r.revision + 1);
      RecordOk(c, u) && Evolves(r, u) && CanTransition(r.state, u.state)
  {
  }

  lemma ManagerKeeps(s: System, w: nat, p: Position, now: int, year: int, id: nat)
    requires Inv(s) && At(s, w) == p && p.ManagerDeciding? && PositionOk(s, p)
    ensures Inv(NextManager(s, w, p, now, year, id)) && Grown(s, NextManager(s, w, p, now, year, id))
  {
    hide Inv, Grown, RecordOk, Evolves, SnapOk, RecordBuilt, WasBuilt;
    PlainKeeps(s, w, Idle);
    if HasRecord(s, p.q) {
      var r, c := Rec(s, p.q), p.command;
      if SamePerson(p.actor, s.config.manager) && r.state.AwaitingManager? && r.package.Some? && r.hash.Some? && r.operations.Some?
         && !SamePerson(p.actor, r.operations.value.actor) && Reasoned(c.verdict, c.reason) {
        RecordFacts(s, p.q);
        var o := r.operations.value;
        var d := ManagerDecision(id, p.q, r.package.value.version, r.hash.value, p.actor, c.verdict, o.id, o.note, c.reason, now, year);
        ManagerDecisionOk(s.config, r, d);
        var u := r.(manager := Some(d), state := if d.verdict.Approve? then ManagerApproved else ManagerRejected, revision := r.revision + 1);
        var b := Built(p.q, id, c.hash, d.hash);
        BuildKeeps(s, b);
        var t := s.(built := s.built + [b]);
        RecordFacts(t, p.q);
        ManagerBuilt(t, r, TagOf(s, p.q), u, d);
        var next := Committing(r, u, TagOf(s, p.q), Idle);
        assert PositionOk(t, next);
        GotoKeeps(t, w, next);
        GrownComposes(s, t, NextManager(s, w, p, now, year, id));
      }
    }
  }

  lemma ManagerBuilt(t: System, r: Record, etag: nat, u: Record, d: ManagerDecision)
    requires SnapOk(t, r, etag) && u.manager == Some(d) && u.operations == r.operations && u.request == r.request == d.request
    requires t.built != [] && t.built[|t.built| - 1].q == d.request && t.built[|t.built| - 1].id == d.id && t.built[|t.built| - 1].recorded == d.hash
    ensures RecordBuilt(t.built, u)
  {
    hide RecordLater, RecordOk;
    assert WasBuilt(t.built, d.request, d.id, d.hash);
  }

  lemma AuthorizeKeeps(s: System, w: nat, p: Position)
    requires Inv(s) && At(s, w) == p && p.Authorizing?
    ensures Inv(NextAuthorize(s, w, p)) && Grown(s, NextAuthorize(s, w, p))
  {
    hide Inv, Grown, Moving, Authorized;
    PlainKeeps(s, w, Idle);
    if HasRecord(s, p.q) && Authorized(Rec(s, p.q)) {
      RecordFacts(s, p.q);
      MovingKeeps(s, w, p.q, Executing, if p.thenExecute then Launching(p.q) else Idle);
    }
  }

  // ---------------------------------------------------------------- the executor, up to the number

  lemma ExecuteKeeps(s: System, w: nat, p: Position)
    requires Inv(s) && At(s, w) == p && p.Launching?
    ensures Inv(NextExecute(s, w, p)) && Grown(s, NextExecute(s, w, p))
  {
    hide Inv, Grown, Authorized, RecordOk;
    PlainKeeps(s, w, Idle);
    if HasRecord(s, p.q) && Rec(s, p.q).state.Executing? {
      RecordFacts(s, p.q);
      assert PositionOk(s, Checking(Rec(s, p.q)));
      GotoKeeps(s, w, Checking(Rec(s, p.q)));
    }
  }

  /** A step of this caller in the invoice book. */
  lemma BookKeeps(s: System, w: nat, act: Invoices.Act, p: Position)
    requires Inv(s) && PositionOk(s, p) && !Carries(p) && Finishes(p).None? && Drives(p).None?
    requires Matches(p, Invoices.At(Booked(s, w, act).book, w))
    ensures var t := Goto(Booked(s, w, act), w, p); Inv(t) && Grown(s, t) && s.book.taken <= t.book.taken
  {
    hide Filed, Receipts, DecisionsBuilt, PositionOk, Grown, Unwritten, Carriers, Finishers, Drivers, Invoices.Inv, Invoices.Next;
    var t := Goto(Booked(s, w, act), w, p);
    SameStoresKeep(s, t);
    Invoices.NextKeeps(s.book, Invoices.Step(w, act));
    forall v | v in t.callers ensures PositionOk(t, t.callers[v]) {
      PositionStays(s, t, if v == w then p else s.callers[v]);
    }
    NotCarrying(s, p);
    CarriersKeep(s, w, p);
    OthersKeep(s, w, p);
    CarriersSame(Goto(s, w, p), t);
    OthersSame(Goto(s, w, p), t);
    forall v: nat | v != w ensures Invoices.At(t.book, v) == Invoices.At(s.book, v) {
      Invoices.OtherLeavesMe(s.book, v, Invoices.Step(w, act));
    }
  }

  lemma MatchesOf(s: System, w: nat)
    requires Inv(s)
    ensures Matches(At(s, w), Invoices.At(s.book, w))
  {
  }

  lemma StaysInYear(b: Invoices.Ledger, w: nat, act: Invoices.Act, year: int)
    requires Invoices.Within(Invoices.At(b, w), year) && (act.Read? || act.Open? || act.Take?)
    ensures Invoices.Within(Invoices.At(Invoices.Next(b, Invoices.Step(w, act)), w), year)
  {
    hide Batch, Admits;
  }

  lemma NotCarrying(s: System, p: Position)
    requires !Carries(p)
    ensures Unwritten(s, p)
  {
  }

  lemma OthersSame(s: System, t: System)
    requires Finishers(s) && Drivers(s) && t.callers == s.callers && t.docs == s.docs && t.config == s.config
    ensures Finishers(t) && Drivers(t)
  {
  }

  lemma ReceiptKeeps(s: System, w: nat, p: Position)
    requires Inv(s) && At(s, w) == p && p.Checking? && PositionOk(s, p)
    ensures Inv(NextReceipt(s, w, p)) && Grown(s, NextReceipt(s, w, p))
  {
    hide Grown, Filed, Receipts, Numbers, DecisionsBuilt, Callers, Carriers, Finishers, Drivers, Frozen;
    var q := p.record.request;
    PlainKeeps(s, w, Idle);
    if HasReceipt(s, q) {
      hide Inv;
      assert PositionOk(s, Returned(q, ReceiptOf(s, q)));
      GotoKeeps(s, w, Returned(q, ReceiptOf(s, q)));
    } else if p.record.manager.Some? {
      assert PositionOk(s, Allocating(p.record));
      BookKeeps(s, w, Invoices.Start(p.record.manager.value.year), Allocating(p.record));
    }
  }

  lemma AllocateKeeps(s: System, w: nat, p: Position, act: Invoices.Act)
    requires Inv(s) && w in s.callers && s.callers[w] == p && p.Allocating? && PositionOk(s, p)
    requires act.Read? || act.Open? || act.Take?
    ensures Inv(Booked(s, w, act)) && Grown(s, Booked(s, w, act))
  {
    hide Inv, Grown, Invoices.Next, PositionOk, Invoices.Within;
    MatchesOf(s, w);
    StaysInYear(s.book, w, act, p.record.manager.value.year);
    BookKeeps(s, w, act, p);
    assert s.callers[w := p] == s.callers;
  }

  lemma CollectKeeps(s: System, w: nat, p: Position)
    requires Inv(s) && w in s.callers && s.callers[w] == p && p.Allocating? && PositionOk(s, p)
    ensures Inv(NextCollect(s, w, p)) && Grown(s, NextCollect(s, w, p))
  {
    hide Inv, Grown, Frozen, Invoices.Inv;
    var held := Invoices.At(s.book, w);
    if held.Done? {
      ClaimKeeps(s, w, p, held.invoice);
    } else if held.GaveUp? {
      BookKeeps(s, w, Invoices.Collect, if held.failure.ConflictRaised? then Idle else Failing(p.record.request));
    } else {
      GrownReflexive(s);
    }
  }

  /** The number that is handed over is new: no request has claimed it, and no blob carries it. */
  lemma ClaimKeeps(s: System, w: nat, p: Position, n: Invoices.Invoice)
    requires Inv(s) && w in s.callers && s.callers[w] == p && p.Allocating? && PositionOk(s, p)
    requires Invoices.At(s.book, w) == Invoices.Done(n)
    ensures var t := Goto(Booked(s, w, Invoices.Collect).(claims := s.claims[n := p.record.request]), w, Rendering(p.record, n));
      Inv(t) && Grown(s, t)
  {
    hide Inv, Grown, Frozen, Invoices.Inv, Invoices.PositionOk;
    NumberIsNew(s, w, n);
    MatchesOf(s, w);
    BookKeeps(s, w, Invoices.Collect, Idle);
    var t := Goto(Booked(s, w, Invoices.Collect), w, Idle);
    assert PositionOk(t, Allocating(p.record)) by {
      hide Filed;
      FiledOf(s);
      PositionStays(s, t, p);
    }
    var u := t.(claims := t.claims[n := p.record.request]);
    ClaimsGrow(t, u, n, p.record.request);
    assert PositionOk(u, Allocating(p.record)) by {
      FiledOf(t);
      hide Filed;
      PositionStays(t, u, Allocating(p.record));
    }
    var next := Rendering(p.record, n);
    assert PositionOk(u, next) && Unwritten(u, next);
    CarryKeeps(u, w, next);
    GrownComposes(s, t, u);
    GrownComposes(s, u, Goto(u, w, next));
    assert Goto(u, w, next) == Goto(Booked(s, w, Invoices.Collect).(claims := s.claims[n := p.record.request]), w, next);
  }

  lemma FiledOf(s: System)
    requires Inv(s)
    ensures Filed(s)
  {
  }

  lemma NumberIsNew(s: System, w: nat, n: Invoices.Invoice)
    requires Inv(s) && Invoices.At(s.book, w) == Invoices.Done(n)
    ensures n !in s.claims && n !in s.book.taken
    ensures Invoices.At(Booked(s, w, Invoices.Collect).book, w).Idle?
    ensures n in Booked(s, w, Invoices.Collect).book.taken
  {
    hide Filed, Receipts, DecisionsBuilt, Callers, Carriers, Finishers, Drivers;
    Invoices.CallerOk(s.book, w);
  }

  lemma ClaimsGrow(s: System, t: System, n: Invoices.Invoice, q: nat)
    requires Inv(s) && t == s.(claims := s.claims[n := q]) && n !in s.claims && n in s.book.taken
    ensures Inv(t) && Grown(s, t)
    ensures forall id :: id in t.blobs ==> id.invoice != n
    ensures forall w :: w in t.callers && Carries(t.callers[w]) ==> NumberOf(t.callers[w]) != n
  {
    hide PositionOk, Unwritten, Finishers, Drivers, Carriers;
    FiledSame(s, t);
    GrownClaims(s, t, n, q);
    forall v | v in t.callers ensures PositionOk(t, t.callers[v]) {
      PositionStays(s, t, s.callers[v]);
    }
    CarriersSame(s, t);
    OthersSame(s, t);
    ReceiptsStay(s, t);
    forall w | w in t.callers && Carries(t.callers[w]) ensures NumberOf(t.callers[w]) != n {
      CarriedIsClaimed(s, s.callers[w]);
    }
  }

  lemma CarriedIsClaimed(s: System, p: Position)
    requires PositionOk(s, p) && Carries(p)
    ensures NumberOf(p) in s.claims
  {
  }

  lemma GrownClaims(s: System, t: System, n: Invoices.Invoice, q: nat)
    requires t == s.(claims := s.claims[n := q]) && n !in s.claims
    ensures Grown(s, t)
  {
  }

  lemma FiledSame(s: System, t: System)
    requires Filed(s) && DecisionsBuilt(s) && t.docs == s.docs && t.config == s.config && t.built == s.built
    ensures Filed(t) && DecisionsBuilt(t)
  {
    SameStoresFile(s, s.(book := t.book));
    hide RecordOk, RecordBuilt, StepOk;
    forall q: nat | HasRecord(t, q) ensures AuditOk(t, q) {
      assert AuditOk(s, q);
      assert forall n: nat :: HasEvent(s, q, n) ==> HasEvent(t, q, n) && EventState(t, q, n) == EventState(s, q, n);
    }
    forall q: nat | HasRecord(t, q) ensures RecordBuilt(t.built, Rec(t, q)) {
      assert RecordBuilt(s.built, Rec(s, q));
    }
  }

  /** Growth keeps the receipts that are there. */
  lemma ReceiptsStay(s: System, t: System)
    requires Grown(s, t) && Filed(s) && Receipts(s)
    requires t.docs == s.docs
    ensures Receipts(t)
  {
    hide DrawnFrom, Filed;
    forall q: nat | HasReceipt(t, q) ensures ReceiptOk(t, q) {
      assert HasReceipt(s, q) && ReceiptOk(s, q);
    }
    forall q: nat | HasRecord(t, q) && Rec(t, q).state.Completed? ensures HasReceipt(t, q) {
      assert HasRecord(s, q) && HasReceipt(s, q);
    }
  }

  /** A caller takes up a number that no other caller holds. */
  lemma CarryKeeps(s: System, w: nat, p: Position)
    requires Inv(s) && At(s, w).Idle? && Carries(p) && PositionOk(s, p) && Unwritten(s, p)
    requires forall v :: v in s.callers && Carries(s.callers[v]) ==> NumberOf(s.callers[v]) != NumberOf(p)
    ensures Inv(Goto(s, w, p)) && Grown(s, Goto(s, w, p))
  {
    hide Filed, Receipts, DecisionsBuilt, Grown, Finishers, Drivers, PositionOk, Unwritten;
    var t := Goto(s, w, p);
    SameStoresKeep(s, t);
    forall v | v in t.callers ensures PositionOk(t, t.callers[v]) {
      PositionStays(s, t, if v == w then p else s.callers[v]);
    }
    OthersKeep(s, w, p);
    forall v | v in t.callers ensures Unwritten(t, t.callers[v]) {
      UnwrittenSame(s, t, if v == w then p else s.callers[v]);
    }
  }

  lemma ReserveKeeps(s: System, w: nat, invoice: Invoices.Invoice, acked: bool)
    requires Inv(s) && At(s, w).Idle?
    ensures var t := Booked(Booked(s, w, Invoices.Reserve(invoice, acked)), w, Invoices.Collect); Inv(t) && Grown(s, t)
  {
    hide Filed, Receipts, DecisionsBuilt, Callers, Grown, Carriers, Finishers, Drivers, Invoices.Inv, Invoices.Next;
    var b1 := Invoices.Next(s.book, Invoices.Step(w, Invoices.Reserve(invoice, acked)));
    var b2 := Invoices.Next(b1, Invoices.Step(w, Invoices.Collect));
    Invoices.NextKeeps(s.book, Invoices.Step(w, Invoices.Reserve(invoice, acked)));
    Invoices.NextKeeps(b1, Invoices.Step(w, Invoices.Collect));
    ReserveEnds(s.book, w, invoice, acked);
    forall v: nat | v != w ensures Invoices.At(b2, v) == Invoices.At(s.book, v) {
      Invoices.OtherLeavesMe(s.book, v, Invoices.Step(w, Invoices.Reserve(invoice, acked)));
      Invoices.OtherLeavesMe(b1, v, Invoices.Step(w, Invoices.Collect));
    }
    OnlyTheBook(s, s.(book := b2));
  }

  lemma ReserveEnds(b: Invoices.Ledger, w: nat, invoice: Invoices.Invoice, acked: bool)
    requires Invoices.At(b, w).Idle?
    ensures var b1 := Invoices.Next(b, Invoices.Step(w, Invoices.Reserve(invoice, acked)));
      Invoices.At(Invoices.Next(b1, Invoices.Step(w, Invoices.Collect)), w).Idle?
  {
  }

  lemma OnlyTheBook(s: System, t: System)
    requires Inv(s) && t == s.(book := t.book) && Invoices.Inv(t.book) && s.book.taken <= t.book.taken
    requires forall v: nat :: Matches(At(s, v), Invoices.At(t.book, v))
    ensures Inv(t) && Grown(s, t)
  {
    hide Filed, Receipts, DecisionsBuilt, PositionOk, Grown, Unwritten, Carriers, Finishers, Drivers, Invoices.Inv;
    SameStoresKeep(s, t);
    forall v | v in t.callers ensures PositionOk(t, t.callers[v]) {
      PositionStays(s, t, s.callers[v]);
    }
    CarriersSame(s, t);
    OthersSame(s, t);
  }

  lemma RenderKeeps(s: System, w: nat, p: Position, first: Option<nat>, second: Option<nat>)
    requires Inv(s) && w in s.callers && s.callers[w] == p && p.Rendering? && PositionOk(s, p) && Unwritten(s, p)
    ensures Inv(NextRender(s, w, p, first, second)) && Grown(s, NextRender(s, w, p, first, second))
  {
    hide Inv, Grown, RecordOk;
    PlainKeeps(s, w, Failing(p.record.request));
    var next := At(NextRender(s, w, p, first, second), w);
    if next.StoringCertificate? {
      assert PositionOk(s, next);
      GotoKeeps(s, w, next);
    }
  }

  // ---------------------------------------------------------------- the executor's writes

  /** No other caller holds the number of this one. */
  lemma OnlyCarrier(s: System, w: nat)
    requires Inv(s) && w in s.callers && Carries(s.callers[w])
    ensures var t := Goto(s, w, Idle); forall v :: v in t.callers && Carries(t.callers[v]) ==> NumberOf(t.callers[v]) != NumberOf(s.callers[w])
  {
    hide Filed, Receipts, DecisionsBuilt, Callers, Finishers, Drivers, Numbers, Unwritten;
  }

  /** A document is written where no blob was. */
  lemma WriteKeeps(s: System, w: nat, p: Position, ok: bool, acked: bool)
    requires Inv(s) && w in s.callers && s.callers[w] == p && (p.StoringCertificate? || p.StoringInvoice?)
    requires PositionOk(s, p) && Unwritten(s, p)
    ensures Inv(NextWrite(s, w, p, ok, acked)) && Grown(s, NextWrite(s, w, p, ok, acked))
  {
    hide Inv, Grown, DrawnFrom;
    var kind := if p.StoringCertificate? then Certificate else InvoicePdf;
    var id := BlobId(p.q, kind, p.payload.invoice);
    if !ok {
      PlainKeeps(s, w, Failing(p.q));
    } else {
      assert id !in s.blobs;
      OnlyCarrier(s, w);
      PlainKeeps(s, w, Idle);
      var t := Goto(s, w, Idle);
      var u := t.(blobs := t.blobs[id := DigestOf(p.payload, kind).bytes]);
      BlobGrows(t, u, id);
      GrownComposes(s, t, u);
      var next := if !acked then Failing(p.q) else if kind.Certificate? then StoringInvoice(p.q, p.payload) else Issuing(p.q, p.payload);
      assert Goto(u, w, next) == NextWrite(s, w, p, ok, acked);
      if acked {
        assert PositionOk(u, next) && Unwritten(u, next);
        CarryKeeps(u, w, next);
      } else {
        PlainKeeps(u, w, next);
      }
      GrownComposes(s, u, Goto(u, w, next));
    }
  }

  lemma BlobGrown(s: System, t: System, id: BlobId)
    requires id !in s.blobs && id in t.blobs && t == s.(blobs := s.blobs[id := t.blobs[id]])
    ensures Grown(s, t)
  {
  }

  lemma BlobGrows(s: System, t: System, id: BlobId)
    requires Inv(s) && id !in s.blobs && id.invoice in s.claims && id in t.blobs && t == s.(blobs := s.blobs[id := t.blobs[id]])
    requires forall v :: v in s.callers && Carries(s.callers[v]) ==> NumberOf(s.callers[v]) != id.invoice
    ensures Inv(t) && Grown(s, t)
  {
    hide PositionOk, Finishers, Drivers, Grown, Filed, Receipts, DecisionsBuilt, Carriers;
    BlobGrown(s, t, id);
    FiledSame(s, t);
    forall v | v in t.callers ensures PositionOk(t, t.callers[v]) {
      PositionStays(s, t, s.callers[v]);
    }
    OthersSame(s, t);
    ReceiptsStay(s, t);
    BlobCarriers(s, t, id);
  }

  lemma BlobCarriers(s: System, t: System, id: BlobId)
    requires Carriers(s) && id in t.blobs && t == s.(blobs := s.blobs[id := t.blobs[id]])
    requires forall v :: v in s.callers && Carries(s.callers[v]) ==> NumberOf(s.callers[v]) != id.invoice
    ensures Carriers(t)
  {
    forall v | v in t.callers ensures Unwritten(t, t.callers[v]) {
      assert Unwritten(s, s.callers[v]);
    }
  }

  /** Only a receipt was created. */
  ghost predicate OnlyReceipt(s: System, t: System, q: nat, payload: Payload) {
    && t == s.(docs := t.docs) && Tagged(t.docs) && s.docs.clock <= t.docs.clock
    && !HasReceipt(s, q) && HasReceipt(t, q) && ReceiptOf(t, q) == payload
    && (forall r: nat :: RecordId(r) in t.docs.docs <==> RecordId(r) in s.docs.docs)
    && (forall r: nat :: RecordId(r) in s.docs.docs ==> t.docs.docs[RecordId(r)] == s.docs.docs[RecordId(r)])
    && (forall r: nat, n: nat :: EventId(r, n) in t.docs.docs <==> EventId(r, n) in s.docs.docs)
    && (forall r: nat, n: nat :: EventId(r, n) in s.docs.docs ==> t.docs.docs[EventId(r, n)] == s.docs.docs[EventId(r, n)])
    && (forall r: nat :: r != q ==> (ReceiptId(r) in t.docs.docs <==> ReceiptId(r) in s.docs.docs))
    && (forall r: nat :: r != q && ReceiptId(r) in s.docs.docs ==> t.docs.docs[ReceiptId(r)] == s.docs.docs[ReceiptId(r)])
  }

  lemma ReceiptWritten(s: System, q: nat, payload: Payload)
    requires Tagged(s.docs) && Admits(s.docs, ReceiptWrites(q, payload))
    ensures OnlyReceipt(s, s.(docs := Batch(s.docs, ReceiptWrites(q, payload))), q, payload)
  {
    hide Batch;
    var writes := ReceiptWrites(q, payload);
    assert ReceiptId(q) in writes;
    BatchKeepsTags(s.docs, writes);
    BatchContents(s.docs, writes);
  }

  lemma ReceiptFiled(s: System, t: System, q: nat, payload: Payload)
    requires Filed(s) && DecisionsBuilt(s) && OnlyReceipt(s, t, q, payload)
    ensures Filed(t) && DecisionsBuilt(t) && Grown(s, t)
    ensures forall r: nat :: HasRecord(s, r) ==> HasRecord(t, r) && Rec(t, r) == Rec(s, r)
  {
    hide RecordOk, RecordBuilt, StepOk;
    forall r: nat | HasRecord(t, r) ensures AuditOk(t, r) && RecordBuilt(t.built, Rec(t, r)) {
      assert HasRecord(s, r) && AuditOk(s, r) && RecordBuilt(s.built, Rec(s, r));
      assert forall n: nat :: HasEvent(s, r, n) ==> HasEvent(t, r, n) && EventState(t, r, n) == EventState(s, r, n);
    }
  }

  lemma ReceiptReceipts(s: System, t: System, q: nat, payload: Payload)
    requires Receipts(s) && OnlyReceipt(s, t, q, payload)
    requires Drawn(s, q, payload) && Claimed(s, payload.invoice, q) && Blob(s, q, Certificate, payload) && Blob(s, q, InvoicePdf, payload)
    ensures Receipts(t)
  {
    hide DrawnFrom;
    forall r: nat | HasReceipt(t, r) ensures ReceiptOk(t, r) {
      if r != q {
        assert HasReceipt(s, r) && ReceiptOk(s, r);
      }
    }
    forall r: nat | HasRecord(t, r) && Rec(t, r).state.Completed? ensures HasReceipt(t, r) {
      assert HasRecord(s, r) && HasReceipt(s, r);
    }
  }

  lemma ReceiptEffect(s: System, q: nat, payload: Payload)
    requires Inv(s) && Admits(s.docs, ReceiptWrites(q, payload))
    requires Drawn(s, q, payload) && Claimed(s, payload.invoice, q) && Blob(s, q, Certificate, payload) && Blob(s, q, InvoicePdf, payload)
    ensures var t := s.(docs := Batch(s.docs, ReceiptWrites(q, payload)));
      && !HasReceipt(s, q) && HasReceipt(t, q) && ReceiptOf(t, q) == payload && HasRecord(s, q)
      && Filed(t) && Grown(s, t) && Receipts(t) && DecisionsBuilt(t)
      && (forall r: nat :: HasRecord(s, r) ==> HasRecord(t, r) && Rec(t, r) == Rec(s, r))
  {
    hide Batch, Admits, Receipts, DecisionsBuilt, Grown, Callers, Carriers, Finishers, Drivers, Numbers, DrawnFrom, Blob, OnlyReceipt;
    var t := s.(docs := Batch(s.docs, ReceiptWrites(q, payload)));
    ReceiptWritten(s, q, payload);
    ReceiptFiled(s, t, q, payload);
    ReceiptReceipts(s, t, q, payload);
    ReceiptIsNew(s, t, q, payload);
  }

  lemma ReceiptIsNew(s: System, t: System, q: nat, payload: Payload)
    requires OnlyReceipt(s, t, q, payload)
    ensures !HasReceipt(s, q) && HasReceipt(t, q) && ReceiptOf(t, q) == payload
  {
  }

  lemma IssueKeeps(s: System, w: nat, p: Position, acked: bool)
    requires Inv(s) && w in s.callers && s.callers[w] == p && p.Issuing? && PositionOk(s, p)
    ensures Inv(NextIssue(s, w, p, acked)) && Grown(s, NextIssue(s, w, p, acked))
  {
    hide Inv, Grown, DrawnFrom, Batch, Admits, Filed, Receipts, DecisionsBuilt;
    PlainKeeps(s, w, Idle);
    if Admits(s.docs, ReceiptWrites(p.q, p.payload)) {
      ReceiptEffect(s, p.q, p.payload);
      var t := s.(docs := Batch(s.docs, ReceiptWrites(p.q, p.payload)));
      NoFinisher(s, p.q);
      ReceiptStored(s, t);
      if acked {
        FinisherArrives(t, w, p.q, p.payload);
      } else {
        PlainKeeps(t, w, Failing(p.q));
      }
      GrownComposes(s, t, NextIssue(s, w, p, acked));
    }
  }

  lemma NoFinisher(s: System, q: nat)
    requires Inv(s) && !HasReceipt(s, q)
    ensures forall v :: v in s.callers ==> Finishes(s.callers[v]) != Some(q)
    ensures HasRecord(s, q) ==> !Rec(s, q).state.Completed?
  {
    hide Filed, DecisionsBuilt, Carriers, Numbers, Drivers, RecordOk, SnapOk, Evolves, RecordBuilt;
    forall v | v in s.callers ensures Finishes(s.callers[v]) != Some(q) {
      assert PositionOk(s, s.callers[v]);
    }
  }

  lemma ReceiptStored(s: System, t: System)
    requires Inv(s) && t == s.(docs := t.docs) && Grown(s, t) && Filed(t) && Receipts(t) && DecisionsBuilt(t)
    requires forall q: nat :: HasRecord(s, q) ==> HasRecord(t, q) && Rec(t, q) == Rec(s, q)
    ensures Inv(t)
  {
    hide PositionOk, Carriers, Finishers, Drivers, Filed, Receipts, DecisionsBuilt, Grown;
    forall v | v in t.callers ensures PositionOk(t, t.callers[v]) {
      PositionStays(s, t, s.callers[v]);
    }
    CarriersSame(s, t);
    OthersSameRecords(s, t);
  }

  lemma OthersSameRecords(s: System, t: System)
    requires Finishers(s) && Drivers(s) && t == s.(docs := t.docs)
    requires forall q: nat :: HasRecord(s, q) ==> HasRecord(t, q) && Rec(t, q) == Rec(s, q)
    ensures Finishers(t) && Drivers(t)
  {
  }

  lemma FinisherArrives(s: System, w: nat, q: nat, payload: Payload)
    requires Inv(s) && !At(s, w).Allocating? && Issued(s, q, payload) && HasRecord(s, q) && !Rec(s, q).state.Completed?
    requires forall v :: v in s.callers ==> Finishes(s.callers[v]) != Some(q)
    ensures Inv(Goto(s, w, Completing(q, payload))) && Grown(s, Goto(s, w, Completing(q, payload)))
  {
    hide Filed, Receipts, DecisionsBuilt, Grown, Carriers, Unwritten, PositionOk, Drivers, Finishers;
    var p := Completing(q, payload);
    var t := Goto(s, w, p);
    assert PositionOk(s, p) by {
      IssuedIsOk(s, q, payload);
    }
    SameStoresKeep(s, t);
    forall v | v in t.callers ensures PositionOk(t, t.callers[v]) {
      PositionStays(s, t, if v == w then p else s.callers[v]);
    }
    NotCarrying(s, p);
    CarriersKeep(s, w, p);
    DriversKeep(s, w, p);
    FinishersTake(s, w, p);
  }

  lemma FinishersTake(s: System, w: nat, p: Position)
    requires Finishers(s) && p.Completing? && HasRecord(s, p.q) && !Rec(s, p.q).state.Completed?
    requires forall v :: v in s.callers ==> Finishes(s.callers[v]) != Some(p.q)
    ensures Finishers(Goto(s, w, p))
  {
  }

  lemma IssuedIsOk(s: System, q: nat, payload: Payload)
    requires Issued(s, q, payload)
    ensures PositionOk(s, Completing(q, payload)) && PositionOk(s, Returned(q, payload))
  {
  }

  lemma DriversKeep(s: System, w: nat, p: Position)
    requires Drivers(s) && Drives(p).None?
    ensures Drivers(Goto(s, w, p))
  {
  }

  // ---------------------------------------------------------------- completing, failing, retrying

  lemma CompleteOk(c: Config, r: Record)
    requires RecordOk(c, r) && (r.state.Executing? || r.state.ExecutionFailed?)
    ensures var u := r.(state := Completed, revision := r.revision + 1); RecordOk(c, u) && Evolves(r, u)
  {
  }

  lemma CompleteKeeps(s: System, w: nat, p: Position)
    requires Inv(s) && w in s.callers && s.callers[w] == p && p.Completing? && PositionOk(s, p)
    ensures Inv(NextComplete(s, w, p)) && Grown(s, NextComplete(s, w, p))
  {
    hide Inv, Grown, RecordOk, Evolves, SnapOk, RecordBuilt;
    PlainKeeps(s, w, Idle);
    if HasRecord(s, p.q) {
      var r := Rec(s, p.q);
      RecordFacts(s, p.q);
      FinisherFacts(s, w, p.q, p.payload);
      CompleteOk(s.config, r);
      var u := r.(state := Completed, revision := r.revision + 1);
      SnapIsBuilt(s, r, TagOf(s, p.q));
      BuiltSame(s.built, r, u);
      var next := Committing(r, u, TagOf(s, p.q), Returned(p.q, p.payload));
      assert PositionOk(s, next);
      GotoKeeps(s, w, next);
    }
  }

  lemma FinisherFacts(s: System, w: nat, q: nat, payload: Payload)
    requires Inv(s) && w in s.callers && Finishes(s.callers[w]) == Some(q) && Issued(s, q, payload)
    ensures HasRecord(s, q) && (Rec(s, q).state.Executing? || Rec(s, q).state.ExecutionFailed?)
  {
    hide Filed, DecisionsBuilt, Carriers, Numbers, Drivers, PositionOk, Callers;
    assert ReceiptOk(s, q);
  }

  lemma RestateKeeps(s: System, w: nat, q: nat, target: RenewalState, done: Position)
    requires Inv(s) && !At(s, w).Allocating? && HasRecord(s, q) && CanTransition(Rec(s, q).state, target)
    requires target.ExecutionFailed? || target.Executing?
    requires target.Executing? ==> Authorized(Rec(s, q))
    requires done.Idle? || done.Launching?
    ensures var t := Goto(s, w, Committing(Rec(s, q), Rec(s, q).(state := target, revision := Rec(s, q).revision + 1), TagOf(s, q), done));
      Inv(t) && Grown(s, t)
  {
    hide Inv, Grown, Authorized;
    RecordFacts(s, q);
    MovingKeeps(s, w, q, target, done);
  }

  lemma FailKeeps(s: System, w: nat, p: Position)
    requires Inv(s) && At(s, w) == p && p.Failing?
    ensures Inv(NextFail(s, w, p)) && Grown(s, NextFail(s, w, p))
  {
    hide Inv, Grown, RecordOk;
    PlainKeeps(s, w, Idle);
    if HasRecord(s, p.q) && Rec(s, p.q).state.Executing? {
      RestateKeeps(s, w, p.q, ExecutionFailed, Idle);
    }
  }

  lemma RetryKeeps(s: System, w: nat, p: Position)
    requires Inv(s) && At(s, w) == p && p.Retrying?
    ensures Inv(NextRetry(s, w, p)) && Grown(s, NextRetry(s, w, p))
  {
    hide Inv, Grown, RecordOk, Authorized;
    PlainKeeps(s, w, Idle);
    if HasRecord(s, p.q) && Rec(s, p.q).state.ExecutionFailed? && Authorized(Rec(s, p.q)) {
      RestateKeeps(s, w, p.q, Executing, Launching(p.q));
    }
  }

  // ---------------------------------------------------------------- downloads

  lemma IssuedBlobs(s: System, q: nat, payload: Payload)
    requires Inv(s) && Issued(s, q, payload)
    ensures Blob(s, q, Certificate, payload) && Blob(s, q, InvoicePdf, payload)
  {
    assert ReceiptOk(s, q);
  }

  lemma FetchKeeps(s: System, w: nat, p: Position)
    requires Inv(s) && At(s, w) == p && p.Fetching? && PositionOk(s, p)
    ensures Inv(NextFetch(s, w, p)) && Grown(s, NextFetch(s, w, p))
    ensures At(NextFetch(s, w, p), w).Served?
  {
    hide Inv, Grown;
    IssuedBlobs(s, p.q, p.payload);
    assert p.kind == Certificate || p.kind == InvoicePdf;
    assert Blob(s, p.q, p.kind, p.payload);
    assert Digest(DigestOf(p.payload, p.kind).bytes) == DigestOf(p.payload, p.kind);
    var next := At(NextFetch(s, w, p), w);
    assert PositionOk(s, next);
    GotoKeeps(s, w, next);
  }

  lemma DownloadKeeps(s: System, w: nat, q: nat, customer: nat, kind: Kind)
    requires Inv(s) && At(s, w).Idle?
    ensures var t := NextDownload(s, w, q, customer, kind); Inv(t) && Grown(s, t)
  {
    hide Inv, Grown;
    GrownReflexive(s);
    if HasRecord(s, q) && Rec(s, q).customer == customer && Rec(s, q).state.Completed? {
      var p := Admitted(q, customer, kind);
      assert PositionOk(s, p);
      GotoKeeps(s, w, p);
    }
  }

  lemma AdmittedKeeps(s: System, w: nat, p: Position)
    requires Inv(s) && At(s, w) == p && p.Admitted? && HasRecord(s, p.q)
    ensures var t := Goto(s, w, LookingUp(p.q, p.customer, p.kind, Rec(s, p.q).state.Completed?)); Inv(t) && Grown(s, t)
  {
    hide Inv, Grown;
    CallerOk(s, w);
    var next := LookingUp(p.q, p.customer, p.kind, Rec(s, p.q).state.Completed?);
    assert PositionOk(s, next);
    GotoKeeps(s, w, next);
  }

  lemma LookUpKeeps(s: System, w: nat, p: Position)
    requires Inv(s) && At(s, w) == p && p.LookingUp?
    ensures var t := Goto(s, w, if HasReceipt(s, p.q) && p.completed then Fetching(p.q, p.customer, p.kind, ReceiptOf(s, p.q)) else Idle); Inv(t) && Grown(s, t)
  {
    hide Inv, Grown;
    PlainKeeps(s, w, Idle);
    CallerOk(s, w);
    if HasReceipt(s, p.q) && p.completed {
      assert PositionOk(s, Fetching(p.q, p.customer, p.kind, ReceiptOf(s, p.q)));
      GotoKeeps(s, w, Fetching(p.q, p.customer, p.kind, ReceiptOf(s, p.q)));
    }
  }

  // ---------------------------------------------------------------- the commit

  /** One record was stored: new, or over the one whose tag was read. */
  ghost predicate Stored(s: System, t: System, r: Record) {
    && t == s.(docs := t.docs)
    && HasRecord(t, r.request) && Rec(t, r.request) == r
    && (forall q: nat :: q != r.request ==> (HasRecord(t, q) <==> HasRecord(s, q)))
    && (forall q: nat :: q != r.request && HasRecord(s, q) ==> Rec(t, q) == Rec(s, q))
    && (forall q: nat :: HasReceipt(t, q) <==> HasReceipt(s, q))
    && Filed(t) && Grown(s, t)
  }

  lemma StoredKeeps(s: System, t: System, r: Record)
    requires Inv(s) && Stored(s, t, r) && RecordBuilt(s.built, r)
    requires r.state.Completed? ==> HasReceipt(s, r.request)
    requires r.state.Completed? ==> forall v :: v in s.callers ==> Finishes(s.callers[v]) != Some(r.request)
    requires !s.config.redriven && r.package.Some? ==> forall v :: v in s.callers ==> Drives(s.callers[v]) != Some(r.request)
    ensures Inv(t)
  {
    hide PositionOk, RecordBuilt, Filed, Receipts, Grown, Carriers, Finishers, Drivers, DecisionsBuilt;
    forall v | v in t.callers ensures PositionOk(t, t.callers[v]) {
      PositionStays(s, t, s.callers[v]);
    }
    StoredReceipts(s, t, r);
    StoredOthers(s, t, r);
    StoredBuilt(s, t, r);
    CarriersSame(s, t);
  }

  lemma StoredOthers(s: System, t: System, r: Record)
    requires Finishers(s) && Drivers(s) && Stored(s, t, r)
    requires r.state.Completed? ==> forall v :: v in s.callers ==> Finishes(s.callers[v]) != Some(r.request)
    requires !s.config.redriven && r.package.Some? ==> forall v :: v in s.callers ==> Drives(s.callers[v]) != Some(r.request)
    ensures Finishers(t) && Drivers(t)
  {
    hide Filed, Grown;
  }

  lemma StoredBuilt(s: System, t: System, r: Record)
    requires DecisionsBuilt(s) && Stored(s, t, r) && RecordBuilt(s.built, r)
    ensures DecisionsBuilt(t)
  {
    hide Filed, Grown, RecordBuilt;
    forall q: nat | HasRecord(t, q) ensures RecordBuilt(t.built, Rec(t, q)) {
      if q != r.request {
        assert HasRecord(s, q) && RecordBuilt(s.built, Rec(s, q));
      }
    }
  }

  lemma StoredReceipts(s: System, t: System, r: Record)
    requires Filed(s) && Receipts(s) && Stored(s, t, r) && (r.state.Completed? ==> HasReceipt(s, r.request))
    ensures Receipts(t)
  {
    hide DrawnFrom, Filed;
    forall q: nat | HasReceipt(t, q) ensures ReceiptOk(t, q) {
      assert HasReceipt(s, q) && ReceiptOk(s, q);
      RunningStays(s, t, q);
      DrawnSame(Rec(s, q), Rec(t, q), ReceiptOf(s, q));
    }
    forall q: nat | HasRecord(t, q) && Rec(t, q).state.Completed? ensures HasReceipt(t, q) {
      if q != r.request {
        assert HasRecord(s, q) && HasReceipt(s, q);
      }
    }
  }

  lemma DrawnSame(a: Record, b: Record, payload: Payload)
    requires DrawnFrom(a, payload) && b.package == a.package && b.manager == a.manager
    ensures DrawnFrom(b, payload)
  {
  }

  /** Only one record and its event were written. */
  ghost predicate OnlyRecord(s: System, t: System, r: Record) {
    && t == s.(docs := t.docs) && Tagged(t.docs) && t.docs.clock == s.docs.clock + 1
    && HasRecord(t, r.request) && Rec(t, r.request) == r && TagOf(t, r.request) == s.docs.clock
    && HasEvent(t, r.request, r.revision) && EventState(t, r.request, r.revision) == r.state
    && (forall q: nat :: q != r.request ==> (RecordId(q) in t.docs.docs <==> RecordId(q) in s.docs.docs))
    && (forall q: nat :: q != r.request && RecordId(q) in s.docs.docs ==> t.docs.docs[RecordId(q)] == s.docs.docs[RecordId(q)])
    && (forall q: nat, n: nat :: q != r.request || n != r.revision ==> (EventId(q, n) in t.docs.docs <==> EventId(q, n) in s.docs.docs))
    && (forall q: nat, n: nat :: EventId(q, n) in s.docs.docs ==> t.docs.docs[EventId(q, n)] == s.docs.docs[EventId(q, n)])
    && (forall q: nat :: ReceiptId(q) in t.docs.docs <==> ReceiptId(q) in s.docs.docs)
    && (forall q: nat :: ReceiptId(q) in s.docs.docs ==> t.docs.docs[ReceiptId(q)] == s.docs.docs[ReceiptId(q)])
  }

  lemma RecordWritten(s: System, r: Record, writes: Writes<DocId, Doc>)
    requires Tagged(s.docs) && Admits(s.docs, writes)
    requires writes.Keys == {RecordId(r.request), EventId(r.request, r.revision)}
    requires writes[RecordId(r.request)].body == RecordDoc(r) && writes[EventId(r.request, r.revision)] == Create(EventDoc(r.state))
    ensures OnlyRecord(s, s.(docs := Batch(s.docs, writes)), r)
  {
    assert EventId(r.request, r.revision) in writes && EventId(r.request, r.revision) !in s.docs.docs;
    hide Batch, Admits;
    BatchKeepsTags(s.docs, writes);
    BatchContents(s.docs, writes);
    var t := s.(docs := Batch(s.docs, writes));
    assert forall k :: k in writes <==> k == RecordId(r.request) || k == EventId(r.request, r.revision);
  }

  lemma WriteRecord(s: System, r: Record, writes: Writes<DocId, Doc>)
    requires Filed(s) && Admits(s.docs, writes) && RecordOk(s.config, r)
    requires writes.Keys == {RecordId(r.request), EventId(r.request, r.revision)}
    requires writes[RecordId(r.request)].body == RecordDoc(r) && writes[EventId(r.request, r.revision)] == Create(EventDoc(r.state))
    requires if HasRecord(s, r.request) then Evolves(Rec(s, r.request), r) && RecordLater(s.config, Rec(s, r.request), r)
             else r.revision == 0 && r.state.CustomerRequested?
    ensures Stored(s, s.(docs := Batch(s.docs, writes)), r)
  {
    hide Batch, Admits, RecordOk, RecordLater, StepOk;
    RecordWritten(s, r, writes);
    StoredFrom(s, s.(docs := Batch(s.docs, writes)), r);
  }

  lemma StoredFrom(s: System, t: System, r: Record)
    requires Filed(s) && OnlyRecord(s, t, r) && RecordOk(s.config, r)
    requires if HasRecord(s, r.request) then Evolves(Rec(s, r.request), r) && RecordLater(s.config, Rec(s, r.request), r)
             else r.revision == 0 && r.state.CustomerRequested?
    ensures Stored(s, t, r)
  {
    hide RecordOk, RecordLater, StepOk, AuditOk;
    var q := r.request;
    NoEventYet(s, r);
    WriteAudit(s, t, r);
    forall p: nat | HasRecord(t, p) ensures AuditOk(t, p) {
      if p != q {
        AuditSame(s, t, r, p);
      }
    }
    forall p: nat | HasRecord(s, p) ensures RecordLater(s.config, Rec(s, p), Rec(t, p)) {
      RecordLaterReflexive(s.config, Rec(s, p));
    }
  }

  lemma RecordLaterReflexive(c: Config, r: Record)
    ensures RecordLater(c, r, r)
  {
  }

  lemma NoEventYet(s: System, r: Record)
    requires Filed(s) && (HasRecord(s, r.request) ==> Rec(s, r.request).revision < r.revision)
    ensures EventId(r.request, r.revision) !in s.docs.docs
  {
    if HasRecord(s, r.request) {
      assert AuditOk(s, r.request);
    }
  }

  lemma AuditSame(s: System, t: System, r: Record, q: nat)
    requires Filed(s) && OnlyRecord(s, t, r) && q != r.request && HasRecord(t, q)
    ensures AuditOk(t, q)
  {
    hide RecordOk, StepOk;
    assert HasRecord(s, q) && AuditOk(s, q);
    assert forall n: nat :: HasEvent(s, q, n) ==> HasEvent(t, q, n) && EventState(t, q, n) == EventState(s, q, n);
  }

  lemma WriteAudit(s: System, t: System, r: Record)
    requires Filed(s) && HasRecord(t, r.request) && Rec(t, r.request) == r
    requires HasEvent(t, r.request, r.revision) && EventState(t, r.request, r.revision) == r.state
    requires forall n: nat :: EventId(r.request, n) in t.docs.docs <==> EventId(r.request, n) in s.docs.docs || n == r.revision
    requires forall n: nat :: n != r.revision && HasEvent(s, r.request, n) ==> HasEvent(t, r.request, n) && EventState(t, r.request, n) == EventState(s, r.request, n)
    requires if HasRecord(s, r.request) then Rec(s, r.request).revision + 1 == r.revision && StepOk(Rec(s, r.request).state, r.state)
             else r.revision == 0 && r.state.CustomerRequested?
    ensures AuditOk(t, r.request)
  {
    hide StepOk, RecordOk;
    var q := r.request;
    if HasRecord(s, q) {
      assert AuditOk(s, q);
      forall n: nat, m: nat | m == n + 1 <= r.revision ensures StepOk(EventState(t, q, n), EventState(t, q, m)) {
        if m < r.revision {
          assert StepOk(EventState(s, q, n), EventState(s, q, m));
        }
      }
    }
  }

  lemma AdmittedCommit(s: System, w: nat, p: Position)
    requires Inv(s) && w in s.callers && s.callers[w] == p && p.Committing? && PositionOk(s, p)
    requires Admits(s.docs, CommitWrites(p.updated, p.etag))
    ensures var q, r := p.updated.request, p.updated;
      && HasRecord(s, q) && Rec(s, q) == p.prior && Filed(s)
      && RecordOk(s.config, r) && Evolves(p.prior, r) && RecordLater(s.config, p.prior, r) && RecordBuilt(s.built, r)
      && LeadsTo(s, r, p.done)
      && (!s.config.redriven && r.package.Some? && p.prior.package.None? ==> Drives(p) == Some(q))
  {
    hide Receipts, DecisionsBuilt, Carriers, Finishers, Numbers, RecordOk, RecordBuilt, AuditOk;
    assert RecordId(p.updated.request) in CommitWrites(p.updated, p.etag);
    var r := p.updated;
    if !s.config.redriven && r.package != p.prior.package {
      assert Drives(p) == Some(r.request);
    }
    if !s.config.redriven && r.hash != p.prior.hash {
      assert Drives(p) == Some(r.request);
    }
    EvolvedIsLater(s.config, p.prior, r, s.config.redriven || p.prior.package.None? || (r.package == p.prior.package && r.hash == p.prior.hash));
  }

  lemma EvolvedIsLater(c: Config, a: Record, b: Record, frozen: bool)
    requires Evolves(a, b) && RecordOk(c, a) && RecordOk(c, b)
    requires frozen && (frozen ==> c.redriven || a.package.None? || (b.package == a.package && b.hash == a.hash))
    ensures RecordLater(c, a, b)
  {
    hide RecordOk, Authorized;
  }

  lemma CommitKeeps(s: System, w: nat, p: Position, acked: bool)
    requires Inv(s) && w in s.callers && s.callers[w] == p && p.Committing? && PositionOk(s, p)
    ensures Inv(NextCommit(s, w, p, acked)) && Grown(s, NextCommit(s, w, p, acked))
  {
    hide Inv, Grown, RecordOk, Evolves, RecordLater, RecordBuilt, SnapOk, Batch, Admits, Filed, Stored, Consistent;
    PlainKeeps(s, w, Idle);
    if Admits(s.docs, CommitWrites(p.updated, p.etag)) {
      AdmittedCommit(s, w, p);
      var q, r := p.updated.request, p.updated;
      var t := Goto(s, w, Idle);
      OnlyMe(s, w);
      FiledOf(t);
      EvolvesSame(p.prior, r);
      WriteRecord(t, r, CommitWrites(r, p.etag));
      var u := t.(docs := Batch(t.docs, CommitWrites(r, p.etag)));
      StoredKeeps(t, u, r);
      StoredIs(t, u, r);
      GrownComposes(s, t, u);
      var next := if acked then p.done else Idle;
      assert Goto(u, w, next) == NextCommit(s, w, p, acked) || !Consistent(r);
      Arrive(s, t, u, w, p, r, next);
      GrownComposes(s, u, Goto(u, w, next));
    }
  }

  lemma EvolvesSame(a: Record, b: Record)
    requires Evolves(a, b)
    ensures b.request == a.request
  {
  }

  lemma StoredIs(s: System, t: System, r: Record)
    requires Stored(s, t, r)
    ensures Grown(s, t) && HasRecord(t, r.request) && Rec(t, r.request) == r && t == s.(docs := t.docs)
    ensures forall q: nat :: HasReceipt(s, q) ==> HasReceipt(t, q) && ReceiptOf(t, q) == ReceiptOf(s, q)
  {
  }

  /** A caller that leaves its place leaves no one behind in it, and a renewal with a package is
      driven by no one else. */
  lemma OnlyMe(s: System, w: nat)
    requires Inv(s) && w in s.callers
    ensures var t := Goto(s, w, Idle);
      && (forall q :: Finishes(s.callers[w]) == Some(q) ==> forall v :: v in t.callers ==> Finishes(t.callers[v]) != Some(q))
      && (!s.config.redriven ==> forall q :: Drives(s.callers[w]) == Some(q) ==> forall v :: v in t.callers ==> Drives(t.callers[v]) != Some(q))
      && (!s.config.redriven ==> forall q: nat, v :: HasRecord(s, q) && Rec(s, q).package.Some? && v in t.callers ==> Drives(t.callers[v]) != Some(q))
  {
    hide Filed, Receipts, DecisionsBuilt, Carriers, Numbers, Callers;
  }

  lemma Arrive(s: System, t: System, u: System, w: nat, p: Position, r: Record, next: Position)
    requires Inv(s) && w in s.callers && s.callers[w] == p && p.Committing? && p.updated == r
    requires t == Goto(s, w, Idle) && Inv(u) && u == t.(docs := u.docs)
    requires HasRecord(s, r.request) && HasRecord(u, r.request) && Rec(u, r.request) == r && p.prior == Rec(s, r.request)
    requires LeadsTo(s, r, p.done) && Evolves(p.prior, r) && (next == p.done || next == Idle)
    requires forall q: nat :: HasReceipt(s, q) ==> HasReceipt(u, q) && ReceiptOf(u, q) == ReceiptOf(s, q)
    requires PositionOk(s, p)
    ensures Inv(Goto(u, w, next)) && Grown(u, Goto(u, w, next))
  {
    hide Inv, Grown, RecordOk, SnapOk, RecordBuilt;
    if next.Investigating? || next.Drafting? {
      DriverArrives(s, t, u, w, p, r, next);
    } else {
      assert Quiet(u, w, next);
      GotoKeeps(u, w, next);
    }
  }

  lemma DriverArrives(s: System, t: System, u: System, w: nat, p: Position, r: Record, next: Position)
    requires Inv(s) && w in s.callers && s.callers[w] == p && p.Committing? && p.done == next && (next.Investigating? || next.Drafting?)
    requires t == Goto(s, w, Idle) && Inv(u) && u == t.(docs := u.docs) && next.q == r.request
    requires HasRecord(s, r.request) && HasRecord(u, r.request) && Rec(u, r.request) == r && p.prior == Rec(s, r.request)
    requires Evolves(p.prior, r) && p.updated == r && LeadsTo(s, r, next) && PositionOk(s, p)
    ensures Inv(Goto(u, w, next)) && Grown(u, Goto(u, w, next))
  {
    hide Inv, Grown;
    OnlyMe(s, w);
    UndraftedStays(s, w, p);
    assert PositionOk(u, next);
    TakeTheWheel(u, w, next);
  }

  lemma UndraftedStays(s: System, w: nat, p: Position)
    requires Inv(s) && w in s.callers && s.callers[w] == p && p.Committing? && (p.done.Investigating? || p.done.Drafting?)
    requires PositionOk(s, p) && HasRecord(s, p.done.q) && Rec(s, p.done.q) == p.prior && p.done.q == p.updated.request
    ensures !s.config.redriven ==> p.updated.package.None?
  {
    hide Filed, Receipts, DecisionsBuilt, Numbers, Carriers, Callers, RecordOk, SnapOk, RecordBuilt, Finishers;
    if !s.config.redriven {
      assert Drives(p) == Some(p.done.q);
      assert p.prior.package.None?;
    }
  }

  /** A caller becomes the driver of a request that has no package and no other driver. */
  lemma TakeTheWheel(s: System, w: nat, p: Position)
    requires Inv(s) && At(s, w).Idle? && PositionOk(s, p) && (p.Beginning? || p.Investigating? || p.Drafting?)
    requires !s.config.redriven ==> HasRecord(s, p.q) && Rec(s, p.q).package.None?
    requires !s.config.redriven ==> forall v :: v in s.callers ==> Drives(s.callers[v]) != Some(p.q)
    ensures Inv(Goto(s, w, p)) && Grown(s, Goto(s, w, p))
  {
    hide Filed, Receipts, DecisionsBuilt, Carriers, Grown, Unwritten, Finishers, PositionOk, Drivers;
    var t := Goto(s, w, p);
    SameStoresKeep(s, t);
    forall v | v in t.callers ensures PositionOk(t, t.callers[v]) {
      PositionStays(s, t, if v == w then p else s.callers[v]);
    }
    NotCarrying(s, p);
    CarriersKeep(s, w, p);
    FinishersKeep(s, w, p);
    DriversTake(s, w, p);
  }

  lemma DriversTake(s: System, w: nat, p: Position)
    requires Drivers(s) && (p.Beginning? || p.Investigating? || p.Drafting?)
    requires !s.config.redriven ==> HasRecord(s, p.q) && Rec(s, p.q).package.None?
    requires !s.config.redriven ==> forall v :: v in s.callers ==> Drives(s.callers[v]) != Some(p.q)
    ensures Drivers(Goto(s, w, p))
  {
  }

  lemma FinishersKeep(s: System, w: nat, p: Position)
    requires Finishers(s) && Finishes(p).None?
    ensures Finishers(Goto(s, w, p))
  {
  }

  // ---------------------------------------------------------------- the start

  lemma StartKeeps(s: System, w: nat, q: nat, customer: nat, equipment: nat, acked: bool)
    requires Inv(s) && At(s, w).Idle?
    ensures var t := NextStart(s, w, q, customer, equipment, acked); Inv(t) && Grown(s, t)
  {
    hide Inv, Grown, Batch, Admits, Filed, Stored, RecordOk, RecordBuilt;
    var r := Record(q, 0, CustomerRequested, customer, equipment, None, None, None, None);
    GrownReflexive(s);
    if Admits(s.docs, CreateWrites(r)) {
      NewRecord(s, r);
      var t := s.(docs := Batch(s.docs, CreateWrites(r)));
      StoredKeeps(s, t, r);
      StoredIs(s, t, r);
      if acked {
        NewDriver(s, t, w, q);
      } else {
        PlainKeeps(t, w, Idle);
      }
      GrownComposes(s, t, NextStart(s, w, q, customer, equipment, acked));
    }
  }

  lemma NewRecord(s: System, r: Record)
    requires Inv(s) && Admits(s.docs, CreateWrites(r))
    requires r.revision == 0 && r.state.CustomerRequested? && r.package.None? && r.hash.None? && r.operations.None? && r.manager.None?
    ensures !HasRecord(s, r.request) && RecordBuilt(s.built, r)
    ensures Stored(s, s.(docs := Batch(s.docs, CreateWrites(r))), r)
  {
    hide Receipts, DecisionsBuilt, Carriers, Finishers, Numbers, Drivers, Callers, Stored, Filed;
    assert RecordId(r.request) in CreateWrites(r);
    assert RecordOk(s.config, r);
    WriteRecord(s, r, CreateWrites(r));
  }

  lemma NewDriver(s: System, t: System, w: nat, q: nat)
    requires Inv(s) && Inv(t) && t == s.(docs := t.docs) && !HasRecord(s, q) && At(s, w).Idle?
    requires HasRecord(t, q) && Rec(t, q).package.None?
    ensures Inv(Goto(t, w, Beginning(q, true))) && Grown(t, Goto(t, w, Beginning(q, true)))
  {
    NoDriver(s, q);
    hide Inv, Grown;
    BeginningOk(t, q);
    TakeTheWheel(t, w, Beginning(q, true));
  }

  lemma NoDriver(s: System, q: nat)
    requires Inv(s) && !HasRecord(s, q)
    ensures !s.config.redriven ==> forall v :: v in s.callers ==> Drives(s.callers[v]) != Some(q)
  {
    hide Filed, Receipts, DecisionsBuilt, Numbers, Carriers, Callers, Finishers;
  }

  lemma BeginningOk(s: System, q: nat)
    ensures PositionOk(s, Beginning(q, true))
  {
  }

  // ---------------------------------------------------------------- every step

  lemma DriveKeeps(s: System, w: nat, p: Position)
    requires Inv(s) && At(s, w).Idle? && s.config.redriven && (p.Beginning? || p.Holding? || p.Verifying?)
    ensures Inv(Goto(s, w, p)) && Grown(s, Goto(s, w, p))
  {
    hide Inv, Grown;
    assert Quiet(s, w, p);
    GotoKeeps(s, w, p);
  }

  lemma AnswerKeeps(s: System, w: nat, p: Position, ok: bool)
    requires Inv(s) && At(s, w) == p && p.Investigating?
    ensures var t := Goto(s, w, if ok then Verifying(p.q) else Holding(p.q)); Inv(t) && Grown(s, t)
  {
    hide Inv, Grown;
    var next := if ok then Verifying(p.q) else Holding(p.q);
    assert Quiet(s, w, next);
    GotoKeeps(s, w, next);
  }

  lemma CrashKeeps(s: System, w: nat)
    requires Inv(s)
    ensures var t := Booked(Goto(s, w, Idle), w, Invoices.Crash); Inv(t) && Grown(s, t)
  {
    hide Inv, Grown, PositionOk;
    IdleOk(s);
    BookKeeps(s, w, Invoices.Crash, Idle);
    assert Booked(Goto(s, w, Idle), w, Invoices.Crash) == Goto(Booked(s, w, Invoices.Crash), w, Idle);
  }

  predicate ControllerStep(a: Act) {
    a.Start? || a.DriveBegin? || a.DriveHold? || a.DriveVerify? || a.LoadBegin? || a.AgentAnswers? || a.LoadHold? || a.LoadVerify?
    || a.LoadDraft? || a.LoadPresent? || a.Review? || a.LoadOperations? || a.LoadEscalate? || a.LoadManager? || a.Authorize? || a.LoadAuthorize?
  }

  lemma ControllerKeeps(s: System, step: Step)
    requires Inv(s) && ControllerStep(step.act)
    ensures Inv(Next(s, step)) && Grown(s, Next(s, step))
  {
    hide Inv, Grown, PositionOk, Moving, NextStart, NextBegin, NextVerify, NextDraft, NextReview, NextOperations, NextManager, NextAuthorize, Unwritten;
    var w, p := step.caller, At(s, step.caller);
    GrownReflexive(s);
    CallerOk(s, w);
    match step.act
    case Start(q, customer, equipment, acked) => if p.Idle? { StartKeeps(s, w, q, customer, equipment, acked); }
    case DriveBegin(q) => if p.Idle? && s.config.redriven { DriveKeeps(s, w, Beginning(q, false)); }
    case DriveHold(q) => if p.Idle? && s.config.redriven { DriveKeeps(s, w, Holding(q)); }
    case DriveVerify(q) => if p.Idle? && s.config.redriven { DriveKeeps(s, w, Verifying(q)); }
    case LoadBegin => if p.Beginning? { BeginKeeps(s, w, p); }
    case AgentAnswers(ok) => if p.Investigating? { AnswerKeeps(s, w, p, ok); }
    case LoadHold => if p.Holding? { PlainMove(s, w, p.q, EvidenceHold); }
    case LoadVerify(finding) => if p.Verifying? { VerifyKeeps(s, w, p, finding); }
    case LoadDraft => if p.Drafting? { DraftKeeps(s, w, p); }
    case LoadPresent => if p.Presenting? { PlainMove(s, w, p.q, AwaitingOperations); }
    case Review(q, actor, command, byManager) => if p.Idle? { ReviewKeeps(s, w, q, actor, command, byManager); }
    case LoadOperations(now, id) => if p.OperationsDeciding? { OperationsKeeps(s, w, p, now, id); }
    case LoadEscalate => if p.Escalating? { PlainMove(s, w, p.q, AwaitingManager); }
    case LoadManager(now, year, id) => if p.ManagerDeciding? { ManagerKeeps(s, w, p, now, year, id); }
    case Authorize(q, thenExecute) => if p.Idle? { PlainKeeps(s, w, Authorizing(q, thenExecute)); }
    case LoadAuthorize => if p.Authorizing? { AuthorizeKeeps(s, w, p); }
    case _ =>
  }

  lemma PlainMove(s: System, w: nat, q: nat, target: RenewalState)
    requires Inv(s) && !At(s, w).Allocating?
    requires target.EvidenceHold? || target.AwaitingOperations? || target.AwaitingManager?
    ensures Inv(Moving(s, w, q, target, Idle)) && Grown(s, Moving(s, w, q, target, Idle))
  {
    hide Inv, Grown, Moving;
    MovingKeeps(s, w, q, target, Idle);
  }

  lemma ExecutorKeeps(s: System, step: Step)
    requires Inv(s) && !ControllerStep(step.act)
    ensures Inv(Next(s, step)) && Grown(s, Next(s, step))
  {
    hide Inv, Grown, PositionOk, Unwritten, Booked, NextExecute, NextReceipt, NextCollect, NextRender, NextWrite, NextIssue, NextComplete, NextFail, NextRetry, NextFetch, NextCommit;
    var w, p := step.caller, At(s, step.caller);
    GrownReflexive(s);
    CallerOk(s, w);
    match step.act
    case Execute(q) => if p.Idle? { PlainKeeps(s, w, Launching(q)); }
    case LoadExecute => if p.Launching? { ExecuteKeeps(s, w, p); }
    case ReadReceipt => if p.Checking? { ReceiptKeeps(s, w, p); }
    case AllocateStep(act) => if p.Allocating? && (act.Read? || act.Open? || act.Take?) { AllocateKeeps(s, w, p, act); }
    case Collect => if p.Allocating? { CollectKeeps(s, w, p); }
    case Reserve(invoice, acked) => if p.Idle? { ReserveKeeps(s, w, invoice, acked); }
    case Render(first, second) => if p.Rendering? { RenderKeeps(s, w, p, first, second); }
    case WriteBlob(ok, acked) => if p.StoringCertificate? || p.StoringInvoice? { WriteKeeps(s, w, p, ok, acked); }
    case Issue(acked) => if p.Issuing? { IssueKeeps(s, w, p, acked); }
    case LoadComplete => if p.Completing? { CompleteKeeps(s, w, p); }
    case LoadFail => if p.Failing? { FailKeeps(s, w, p); }
    case Retry(q) => if p.Idle? { PlainKeeps(s, w, Retrying(q)); }
    case LoadRetry => if p.Retrying? { RetryKeeps(s, w, p); }
    case Download(q, customer, kind) => if p.Idle? { DownloadKeeps(s, w, q, customer, kind); }
    case LoadDownload => if p.Admitted? { PlainKeeps(s, w, Idle); if HasRecord(s, p.q) { AdmittedKeeps(s, w, p); } }
    case ReadIssued => if p.LookingUp? { LookUpKeeps(s, w, p); }
    case ReadBlob => if p.Fetching? { FetchKeeps(s, w, p); }
    case Commit(acked) => if p.Committing? { CommitKeeps(s, w, p, acked); }
    case Return => if p.Returned? || p.Served? || p.Corrupted? { PlainKeeps(s, w, Idle); }
    case Crash => CrashKeeps(s, w);
    case _ =>
  }

  lemma NextKeeps(s: System, step: Step)
    requires Inv(s)
    ensures Inv(Next(s, step)) && Grown(s, Next(s, step))
  {
    hide Inv, Grown, Next;
    if ControllerStep(step.act) {
      ControllerKeeps(s, step);
    } else {
      ExecutorKeeps(s, step);
    }
  }

  lemma InitialOk(config: Config)
    ensures Inv(Initial(config))
  {
  }

  lemma {:induction false} HistoryOnlyGrows(s: System, steps: seq<Step>)
    requires Inv(s)
    ensures Inv(Run(Next, s, steps)) && Grown(s, Run(Next, s, steps))
  {
    hide Inv, Grown, Next;
    if steps == [] {
      GrownReflexive(s);
    } else {
      var t := Run(Next, s, steps[..|steps| - 1]);
      HistoryOnlyGrows(s, steps[..|steps| - 1]);
      NextKeeps(t, steps[|steps| - 1]);
      GrownComposes(s, t, Next(t, steps[|steps| - 1]));
    }
  }
}
