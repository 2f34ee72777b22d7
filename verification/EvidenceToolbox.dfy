/** The scoped toolbox of a specialist against the broker: whatever is lost, cancelled or revoked
    on the way, a toolbox that is idle and not failed holds exactly the broker's durable
    receipts. */
module EvidenceToolbox {
  import opened Results
  import opened DocumentStore
  import opened EvidenceBroker
  import opened EvidenceSafety
  import opened Traces

  // ---------------------------------------------------------------- one toolbox

  /** The call under way: checked and counted, or with the broker. */
  datatype Line = Free | Asked(request: Request) | Sent(request: Request)

  datatype Client = Client(failed: bool, calls: nat, receiptIds: seq<nat>, results: seq<Receipt>, line: Line)

  const FRESH := Client(false, 0, [], [], Free)

  /** The argument shapes a toolbox lets through. */
  predicate Shaped(tool: Tool, args: Arguments) {
    if tool.AnalyzeDocument? || tool.AnalyzeServiceCoverageDocument? then args.DocumentId?
    else if tool.RetrievePolicy? || tool.RetrieveRenewalPolicy? then args.Query? && args.wellFormed
    else if tool.CalculateRenewalQuote? then args.BaseAmount? && args.wellFormed
    else args.Nothing?
  }

  /** `_call` up to its await: the call is counted before it is sent. */
  function Asking(c: Client, role: Role, tool: Tool, args: Arguments, now: int, expiresAt: int): Client {
    if c.failed || now >= expiresAt || c.calls >= CALL_BUDGET || tool !in Allowed(role) || !Shaped(tool, args) then c.(failed := true)
    else c.(calls := c.calls + 1, line := Asked(Request(role, tool, args)))
  }

  /** `_call` after its await; None is an error, a timeout or an unusable answer. */
  function Accepting(c: Client, request: Request, reply: Option<Receipt>, now: int, expiresAt: int): Client {
    if reply.None? || reply.value.role != request.role || reply.value.tool != request.tool
       || reply.value.id in c.receiptIds || c.failed || now >= expiresAt
    then c.(failed := true, line := Free)
    else c.(receiptIds := c.receiptIds + [reply.value.id], results := c.results + [reply.value], line := Free)
  }

  /** The toolbox of one specialist. Its lock serializes the calls; while one is awaited a queued
      call may be cancelled. */
  class ScopedEvidenceTools {
    const role: Role
    const expiresAt: int
    var failed: bool
    var calls: nat
    var receiptIds: seq<nat>
    var results: seq<Receipt>

    constructor (role: Role, expiresAt: int)
      ensures State(Free) == FRESH && this.role == role && this.expiresAt == expiresAt
    {
      this.role, this.expiresAt := role, expiresAt;
      failed, calls, receiptIds, results := false, 0, [], [];
    }

    function State(line: Line): Client
      reads this
    {
      Client(failed, calls, receiptIds, results, line)
    }

    /** A call that returns has added exactly its own receipt; any other has failed the toolbox
        for good. */
    method Call(tool: Tool, args: Arguments, asked: int, reply: Option<Receipt>, answered: int, cancelled: bool)
      returns (r: Option<Receipt>)
      modifies this
      ensures var c := Asking(old(State(Free)), role, tool, args, asked, expiresAt);
        State(Free) == match c.line
                       case Asked(request) => Accepting(c.(failed := cancelled), request, reply, answered, expiresAt)
                       case _ => c
      ensures r.Some? <==> !failed
      ensures r.Some? <==>
        && !old(failed) && old(calls) < 6 && asked < expiresAt && tool in Allowed(role) && Shaped(tool, args)
        && !cancelled && answered < expiresAt
        && reply.Some? && reply.value.role == role && reply.value.tool == tool && reply.value.id !in old(receiptIds)
      ensures calls <= old(calls) + 1 && (r.Some? ==> calls == old(calls) + 1)
      ensures r.Some? ==> r == reply && receiptIds == old(receiptIds) + [r.value.id] && results == old(results) + [r.value]
      ensures old(failed) ==> failed && receiptIds == old(receiptIds)
    {
      if failed || asked >= expiresAt || calls >= 6 || tool !in Allowed(role) || !Shaped(tool, args) {
        failed := true;
        return None;
      }
      calls := calls + 1;
      if cancelled {
        failed := true;
      }
      if reply.None? || reply.value.role != role || reply.value.tool != tool || reply.value.id in receiptIds
         || failed || answered >= expiresAt {
        failed := true;
        return None;
      }
      receiptIds := receiptIds + [reply.value.id];
      results := results + [reply.value];
      return reply;
    }
  }

  // ---------------------------------------------------------------- toolboxes and broker together

  /** One caller of the broker serves each specialist. */
  function Worker(role: Role): nat {
    match role
    case DocumentAnalyst => 0
    case EquipmentService => 1
    case RenewalCoordinator => 2
    case CoverageBilling => 3
  }

  predicate IsWorker(w: nat) {
    w < 4
  }

  datatype Desk = Desk(broker: Broker, clients: map<Role, Client>)

  function ClientOf(s: Desk, role: Role): Client {
    if role in s.clients then s.clients[role] else FRESH
  }

  function WithClient(s: Desk, role: Role, c: Client): Desk {
    s.(clients := s.clients[role := c])
  }

  function Opening(binding: Binding, firstHandle: nat, secondHandle: nat): Desk {
    Desk(Issue(binding, firstHandle, secondHandle), map[])
  }

  datatype Move =
    | Ask(role: Role, tool: Tool, args: Arguments, now: int)
    | Forward(role: Role, now: int)
    | Serve(role: Role, act: Act)
    | Receive(role: Role, intact: bool, now: int)
    | Lose(role: Role)
    | Cancel(role: Role)
    | Other(step: Step)

  /** What the broker does for a request that reached it. */
  predicate Serves(act: Act) {
    act.CallReserve? || act.CallConfirm? || act.CallRead? || act.CallStore? || act.FailLoad? || act.FailStore? || act.Crash?
  }

  /** Everyone else at the broker: the controller that finishes or revokes, and callers that do
      not hold a scope's handle. */
  predicate Stranger(s: Desk, step: Step) {
    && !IsWorker(step.caller)
    && (step.act.CallLoad? ==> step.act.request.role !in s.broker.handles || step.act.handle != s.broker.handles[step.act.request.role])
  }

  function Served(s: Desk, step: Step): Desk {
    s.(broker := EvidenceBroker.Next(s.broker, step))
  }

  function Next(s: Desk, m: Move): Desk {
    match m
    case Ask(role, tool, args, now) =>
      if ClientOf(s, role).line.Free? then WithClient(s, role, Asking(ClientOf(s, role), role, tool, args, now, s.broker.binding.expiresAt)) else s
    case Forward(role, now) =>
      var c := ClientOf(s, role);
      if c.line.Asked? && At(s.broker, Worker(role)).Idle? && role in s.broker.handles
      then
        WithClient(
          Served(s, Step(Worker(role), CallLoad(s.broker.binding.tenant, s.broker.binding.principal, s.broker.handles[role], c.line.request, now))),
          role, c.(line := Sent(c.line.request)))
      else s
    case Serve(role, act) =>
      if Serves(act) || (act.Return? && !ClientOf(s, role).line.Sent?) then Served(s, Step(Worker(role), act)) else s
    case Receive(role, intact, now) =>
      var c, p := ClientOf(s, role), At(s.broker, Worker(role));
      if c.line.Sent? && p.Answered?
      then
        WithClient(Served(s, Step(Worker(role), Return)), role,
          Accepting(c, c.line.request, if intact then p.result else None, now, s.broker.binding.expiresAt))
      else s
    case Lose(role) =>
      if ClientOf(s, role).line.Free? then s else WithClient(s, role, ClientOf(s, role).(failed := true, line := Free))
    case Cancel(role) => WithClient(s, role, ClientOf(s, role).(failed := true))
    case Other(step) => if Stranger(s, step) then Served(s, step) else s
  }

  // ---------------------------------------------------------------- the invariant

  predicate InCall(p: Position) {
    p.Reserving? || p.Reserved? || p.Reading? || p.Storing?
  }

  /** Only the worker of a role is ever in a call for it, and a receipt is by the tool asked for. */
  ghost predicate CallsServed(b: Broker) {
    && (forall w :: w in b.callers && InCall(b.callers[w]) ==> w == Worker(b.callers[w].request.role))
    && (forall w :: w in b.callers && b.callers[w].Storing? ==> b.callers[w].receipt.tool == b.callers[w].request.tool)
  }

  ghost predicate ResultsMatch(b: Broker, c: Client) {
    && |c.results| == |c.receiptIds|
    && forall i :: 0 <= i < |c.results| ==>
         c.results[i].id == c.receiptIds[i] && HasReceipt(b.docs, c.receiptIds[i]) && ReceiptOf(b.docs, c.receiptIds[i]) == c.results[i]
  }

  ghost predicate LineAgrees(role: Role, c: Client, p: Position, durable: seq<nat>) {
    match c.line
    case Free => p.Idle? && durable == c.receiptIds
    case Asked(request) => p.Idle? && durable == c.receiptIds && request.role == role
    case Sent(request) =>
      && request.role == role
      && (InCall(p) ==> p.request == request && durable == c.receiptIds)
      && (p.Answered? && p.result.Some? ==>
            p.result.value.role == role && p.result.value.tool == request.tool && durable == c.receiptIds + [p.result.value.id])
  }

  ghost predicate AnswerStored(b: Broker, p: Position) {
    p.Answered? && p.result.Some? ==> HasReceipt(b.docs, p.result.value.id) && ReceiptOf(b.docs, p.result.value.id) == p.result.value
  }

  ghost predicate Agrees(s: Desk, role: Role) {
    var c, p := ClientOf(s, role), At(s.broker, Worker(role));
    && HasScope(s.broker.docs, role)
    && ResultsMatch(s.broker, c) && AnswerStored(s.broker, p)
    && (!c.line.Free? ==> c.line.request.role == role)
    && (c.failed || LineAgrees(role, c, p, ScopeOf(s.broker.docs, role).receipts))
  }

  ghost predicate DeskInv(s: Desk) {
    && Inv(s.broker) && CallsServed(s.broker)
    && forall role :: InPack(s.broker.binding, role) ==> Agrees(s, role)
  }

  // ---------------------------------------------------------------- one step of the broker

  predicate Files(s: Broker, step: Step, role: Role) {
    var p := At(s, step.caller);
    step.act.CallStore? && p.Storing? && p.request.role == role && Admits(s.docs, ReceiptWrites(p.held, p.tag, p.receipt))
  }

  /** A step that files nothing for the role. */
  ghost predicate SameReceipts(s: Broker, t: Broker, role: Role) {
    && HasScope(s.docs, role) && HasScope(t.docs, role)
    && ScopeOf(t.docs, role).receipts == ScopeOf(s.docs, role).receipts
    && (forall id :: HasReceipt(s.docs, id) ==> HasReceipt(t.docs, id) && ReceiptOf(t.docs, id) == ReceiptOf(s.docs, id))
  }

  lemma RewriteSame(s: Broker, next: Scope, tag: nat, role: Role)
    requires Inv(s) && InPack(s.binding, role) && InPack(s.binding, next.role) && Admits(s.docs, Rewrite(next, tag))
    requires next.receipts == ScopeOf(s.docs, next.role).receipts
    ensures SameReceipts(s, s.(docs := Batch(s.docs, Rewrite(next, tag))), role)
  {
    hide Scopes, ReceiptsOk, OneOwner, Ends, PositionOk, Admits, Batch, Rewrite;
    RewriteEffect(s, next, tag);
  }

  lemma ReserveSame(s: Broker, w: nat, acked: bool, role: Role)
    requires Inv(s) && w in s.callers && s.callers[w].Reserving? && InPack(s.binding, role)
    ensures SameReceipts(s, NextReserve(s, w, s.callers[w], acked), role)
  {
    hide Inv, Admits, Batch, Rewrite, SnapOk, RequestOk;
    var p := s.callers[w];
    Positioned(s, w);
    ScopesThere(s, role);
    var next := p.snap.(state := Calling, calls := p.snap.calls + 1);
    if Admits(s.docs, Rewrite(next, p.tag)) {
      SnapRole(s, p.request.role, p.snap, p.tag);
      RequestRole(s, p.request);
      AdmittedIsCurrent(s, p.request.role, p.snap, next, p.tag);
      RewriteSame(s, next, p.tag, role);
    }
  }

  lemma ScopesThere(s: Broker, role: Role)
    requires Inv(s) && InPack(s.binding, role)
    ensures HasScope(s.docs, role)
  {
  }

  lemma FailSame(s: Broker, w: nat, acked: bool, role: Role)
    requires Inv(s) && w in s.callers && s.callers[w].FailStoring? && InPack(s.binding, role)
    ensures SameReceipts(s, NextFailStore(s, w, s.callers[w], acked), role)
  {
    hide Inv, Admits, Batch, Rewrite, SnapOk;
    var p := s.callers[w];
    Positioned(s, w);
    ScopesThere(s, role);
    var next := p.snap.(state := Failed);
    if Admits(s.docs, Rewrite(next, p.tag)) {
      SnapRole(s, p.role, p.snap, p.tag);
      SnapInPack(s, p.role, p.snap, p.tag);
      AdmittedIsCurrent(s, p.role, p.snap, next, p.tag);
      RewriteSame(s, next, p.tag, role);
    }
  }

  lemma CloseSame(s: Broker, w: nat, acked: bool, role: Role)
    requires Inv(s) && w in s.callers && s.callers[w].Closing? && InPack(s.binding, role)
    ensures SameReceipts(s, NextClose(s, w, s.callers[w], acked), role)
  {
    hide Inv, Admits, Batch, CloseWrites;
    var p := s.callers[w];
    ScopesThere(s, role);
    if Admits(s.docs, CloseWrites(p.first, p.firstTag, p.second, p.secondTag)) {
      ClosingRoles(s, w);
      CloseEffect(s, p.first, p.firstTag, p.second, p.secondTag);
      ClosingCurrent(s, w);
    }
  }

  lemma StoreMoves(s: Broker, w: nat, acked: bool, role: Role)
    requires Inv(s) && w in s.callers && s.callers[w].Storing? && InPack(s.binding, role)
    ensures var p := s.callers[w]; var t := NextStore(s, w, p, acked);
      var admitted := Admits(s.docs, ReceiptWrites(p.held, p.tag, p.receipt));
      && (!admitted || p.request.role != role ==> SameReceipts(s, t, role))
      && (admitted && p.request.role == role ==> Filed1(s, t, role, p))
  {
    hide Inv, Admits, Batch, ReceiptWrites;
    var p := s.callers[w];
    ScopesThere(s, role);
    if Admits(s.docs, ReceiptWrites(p.held, p.tag, p.receipt)) {
      StoringFacts(s, w);
      StoreEffect(s, p.held, p.tag, p.receipt);
      StoringCurrent(s, w);
    }
  }

  /** The receipt is filed, and nothing else. */
  ghost predicate Filed1(s: Broker, t: Broker, role: Role, p: Position)
    requires p.Storing?
  {
    && HasScope(s.docs, role) && HasScope(t.docs, role)
    && ScopeOf(t.docs, role).receipts == ScopeOf(s.docs, role).receipts + [p.receipt.id]
    && HasReceipt(t.docs, p.receipt.id) && ReceiptOf(t.docs, p.receipt.id) == p.receipt
    && p.receipt.role == role
    && (forall id :: HasReceipt(s.docs, id) ==> HasReceipt(t.docs, id) && ReceiptOf(t.docs, id) == ReceiptOf(s.docs, id))
  }

  predicate Stores(a: Act) {
    a.CallReserve? || a.CallStore? || a.FailStore? || a.FinishStore?
  }

  lemma QuietSame(s: Broker, step: Step, role: Role)
    requires Inv(s) && InPack(s.binding, role) && !Stores(step.act)
    ensures SameReceipts(s, EvidenceBroker.Next(s, step), role)
  {
    hide Inv;
    ScopesThere(s, role);
    DocsStay(s, step);
  }

  lemma DocsStay(s: Broker, step: Step)
    requires !Stores(step.act)
    ensures EvidenceBroker.Next(s, step).docs == s.docs
  {
    hide ReadRole;
  }

  lemma NextIsStore(s: Broker, step: Step)
    ensures step.act.CallReserve? && At(s, step.caller).Reserving? ==> EvidenceBroker.Next(s, step) == NextReserve(s, step.caller, At(s, step.caller), step.act.acked)
    ensures step.act.FailStore? && At(s, step.caller).FailStoring? ==> EvidenceBroker.Next(s, step) == NextFailStore(s, step.caller, At(s, step.caller), step.act.acked)
    ensures step.act.FinishStore? && At(s, step.caller).Closing? ==> EvidenceBroker.Next(s, step) == NextClose(s, step.caller, At(s, step.caller), step.act.acked)
    ensures step.act.CallStore? && At(s, step.caller).Storing? ==> EvidenceBroker.Next(s, step) == NextStore(s, step.caller, At(s, step.caller), step.act.acked)
    ensures Stores(step.act) && At(s, step.caller).Idle? ==> EvidenceBroker.Next(s, step) == s
    ensures step.act.CallReserve? && !At(s, step.caller).Reserving? ==> EvidenceBroker.Next(s, step) == s
    ensures step.act.FailStore? && !At(s, step.caller).FailStoring? ==> EvidenceBroker.Next(s, step) == s
    ensures step.act.FinishStore? && !At(s, step.caller).Closing? ==> EvidenceBroker.Next(s, step) == s
    ensures step.act.CallStore? && !At(s, step.caller).Storing? ==> EvidenceBroker.Next(s, step) == s
  {
    hide NextReserve, NextFailStore, NextClose, NextStore;
  }

  /** The receipts of a role change only when its stored call is admitted, and then by that one
      receipt. */
  lemma ReceiptsMove(s: Broker, step: Step, role: Role)
    requires Inv(s) && InPack(s.binding, role)
    ensures var t := EvidenceBroker.Next(s, step);
      && (!Files(s, step, role) ==> SameReceipts(s, t, role))
      && (Files(s, step, role) ==> Filed1(s, t, role, At(s, step.caller)))
  {
    hide Inv, EvidenceBroker.Next, SameReceipts, Filed1, NextReserve, NextFailStore, NextClose, NextStore;
    if !Stores(step.act) {
      QuietSame(s, step, role);
    } else {
      var w, p := step.caller, At(s, step.caller);
      NextIsStore(s, step);
      SameIsSame(s, role);
      if step.act.CallReserve? && p.Reserving? {
        ReserveSame(s, w, step.act.acked, role);
      } else if step.act.FailStore? && p.FailStoring? {
        FailSame(s, w, step.act.acked, role);
      } else if step.act.FinishStore? && p.Closing? {
        CloseSame(s, w, step.act.acked, role);
      } else if step.act.CallStore? && p.Storing? {
        StoreMoves(s, w, step.act.acked, role);
      }
    }
  }

  lemma SameIsSame(s: Broker, role: Role)
    requires Inv(s) && InPack(s.binding, role)
    ensures SameReceipts(s, s, role)
  {
  }

  ghost predicate OneMoves(s: Broker, t: Broker, w: nat) {
    && t.binding == s.binding && t.handles == s.handles
    && (t.callers == s.callers || t.callers == s.callers[w := At(t, w)])
  }

  /** A step moves only its own caller. */
  lemma OnlyItsCaller(s: Broker, step: Step)
    ensures OneMoves(s, EvidenceBroker.Next(s, step), step.caller)
  {
    hide EvidenceBroker.Next, NextReserve, NextFailStore, NextClose, NextStore;
    if Stores(step.act) {
      NextIsStore(s, step);
      StorersMove(s, step.caller, At(s, step.caller), step.act.acked);
    } else {
      OthersMove(s, step);
    }
  }

  lemma StorersMove(s: Broker, w: nat, p: Position, acked: bool)
    ensures p.Reserving? ==> OneMoves(s, NextReserve(s, w, p, acked), w)
    ensures p.FailStoring? ==> OneMoves(s, NextFailStore(s, w, p, acked), w)
    ensures p.Closing? ==> OneMoves(s, NextClose(s, w, p, acked), w)
    ensures p.Storing? ==> OneMoves(s, NextStore(s, w, p, acked), w)
  {
    hide Admits, Batch, Rewrite, ReceiptWrites, CloseWrites;
  }

  lemma OthersMove(s: Broker, step: Step)
    requires !Stores(step.act)
    ensures OneMoves(s, EvidenceBroker.Next(s, step), step.caller)
  {
    hide ReadRole, ArgumentsFit, Allowed;
  }

  // ---------------------------------------------------------------- where a worker goes

  /** Calls are entered only with the scope's handle. */
  lemma CallEntered(s: Broker, step: Step)
    requires Inv(s) && step.act.CallLoad? && InCall(At(EvidenceBroker.Next(s, step), step.caller)) && !InCall(At(s, step.caller))
    ensures var q := step.act.request;
      && At(EvidenceBroker.Next(s, step), step.caller).Reserving? && At(EvidenceBroker.Next(s, step), step.caller).request == q
      && q.role in s.handles && step.act.handle == s.handles[q.role]
  {
    hide ReceiptsOk, OneOwner, Ends, PositionOk;
    if HasScope(s.docs, step.act.request.role) {
      assert ScopeOk(s, step.act.request.role);
    }
  }

  /** A call stays on its request, and ends with its receipt, with nothing, or in failing its
      scope. */
  lemma WorkerMoves(s: Broker, step: Step)
    ensures var p, q := At(s, step.caller), At(EvidenceBroker.Next(s, step), step.caller);
      && (InCall(p) && InCall(q) ==> q.request == p.request)
      && (!InCall(p) && InCall(q) ==> step.act.CallLoad? && p.Idle?)
      && (q.Answered? && q.result.Some? && q != p ==>
            step.act.CallStore? && p.Storing? && q.result == Some(p.receipt) && Admits(s.docs, ReceiptWrites(p.held, p.tag, p.receipt)))
      && (InCall(q) ==> !Files(s, step, q.request.role))
      && (q.Storing? && q != p ==> q.receipt.tool == q.request.tool)
  {
    hide ReadRole, Batch, Admits, ArgumentsFit, Allowed;
  }

  lemma StoringTool(s: Broker, w: nat)
    requires Inv(s) && w in s.callers && s.callers[w].Storing?
    ensures s.callers[w].receipt.role == s.callers[w].request.role
  {
    assert PositionOk(s, s.callers[w]);
  }

  // ---------------------------------------------------------------- every step

  lemma ServedCalls(s: Broker, step: Step)
    requires Inv(s) && CallsServed(s)
    requires step.act.CallLoad? && step.act.request.role in s.handles && step.act.handle == s.handles[step.act.request.role]
      ==> step.caller == Worker(step.act.request.role)
    ensures CallsServed(EvidenceBroker.Next(s, step))
  {
    hide Inv, EvidenceBroker.Next, Files;
    OnlyItsCaller(s, step);
    WorkerMoves(s, step);
    var p, q := At(s, step.caller), At(EvidenceBroker.Next(s, step), step.caller);
    if InCall(q) && !InCall(p) {
      CallEntered(s, step);
    }
  }

  lemma ResultsStay(s: Broker, t: Broker, role: Role, c: Client)
    requires ResultsMatch(s, c)
    requires forall id :: HasReceipt(s.docs, id) ==> HasReceipt(t.docs, id) && ReceiptOf(t.docs, id) == ReceiptOf(s.docs, id)
    ensures ResultsMatch(t, c)
  {
  }

  /** A step of anyone but its worker leaves a toolbox in agreement. */
  lemma OthersAgree(s: Desk, step: Step, role: Role)
    requires DeskInv(s) && InPack(s.broker.binding, role) && step.caller != Worker(role)
    ensures Agrees(Served(s, step), role)
  {
    hide Inv, EvidenceBroker.Next;
    assert Agrees(s, role);
    OnlyItsCaller(s.broker, step);
    ReceiptsMove(s.broker, step, role);
    assert !Files(s.broker, step, role);
    ResultsStay(s.broker, EvidenceBroker.Next(s.broker, step), role, ClientOf(s, role));
  }

  lemma ServeAgrees(s: Desk, role: Role, act: Act)
    requires DeskInv(s) && InPack(s.broker.binding, role)
    requires Serves(act) || (act.Return? && !ClientOf(s, role).line.Sent?)
    ensures Agrees(Served(s, Step(Worker(role), act)), role)
  {
    hide Inv, EvidenceBroker.Next, Admits, ReceiptWrites;
    assert Agrees(s, role);
    var step := Step(Worker(role), act);
    OnlyItsCaller(s.broker, step);
    ReceiptsMove(s.broker, step, role);
    WorkerMoves(s.broker, step);
    IdleStays(s.broker, step);
    ResultsStay(s.broker, EvidenceBroker.Next(s.broker, step), role, ClientOf(s, role));
    var p := At(s.broker, Worker(role));
    if p.Storing? {
      StoringTool(s.broker, Worker(role));
    }
  }

  lemma IdleStays(s: Broker, step: Step)
    ensures At(s, step.caller).Idle? && (Serves(step.act) || step.act.Return?) ==> At(EvidenceBroker.Next(s, step), step.caller).Idle?
    ensures step.act.Return? && At(s, step.caller).Answered? ==> At(EvidenceBroker.Next(s, step), step.caller).Idle?
  {
  }

  lemma ForwardAgrees(s: Desk, role: Role, now: int)
    requires DeskInv(s) && InPack(s.broker.binding, role)
    ensures Agrees(Next(s, Forward(role, now)), role)
  {
    hide Inv, EvidenceBroker.Next, Admits, ReceiptWrites;
    assert Agrees(s, role);
    var c := ClientOf(s, role);
    if c.line.Asked? && At(s.broker, Worker(role)).Idle? && role in s.broker.handles {
      var step := Step(Worker(role), CallLoad(s.broker.binding.tenant, s.broker.binding.principal, s.broker.handles[role], c.line.request, now));
      OnlyItsCaller(s.broker, step);
      ReceiptsMove(s.broker, step, role);
      WorkerMoves(s.broker, step);
      ResultsStay(s.broker, EvidenceBroker.Next(s.broker, step), role, c);
      if InCall(At(EvidenceBroker.Next(s.broker, step), Worker(role))) {
        CallEntered(s.broker, step);
      }
    }
  }

  lemma ReceiveAgrees(s: Desk, role: Role, intact: bool, now: int)
    requires DeskInv(s) && InPack(s.broker.binding, role)
    ensures Agrees(Next(s, Receive(role, intact, now)), role)
  {
    hide Inv, EvidenceBroker.Next;
    assert Agrees(s, role);
    var c := ClientOf(s, role);
    if c.line.Sent? && At(s.broker, Worker(role)).Answered? {
      var step := Step(Worker(role), Return);
      OnlyItsCaller(s.broker, step);
      ReceiptsMove(s.broker, step, role);
      IdleStays(s.broker, step);
      ResultsStay(s.broker, EvidenceBroker.Next(s.broker, step), role, c);
    }
  }

  /** A move of one toolbox leaves the others in agreement, whatever its worker does. */
  lemma AnotherAgrees(s: Desk, t: Desk, step: Step, role: Role, moved: Role)
    requires DeskInv(s) && InPack(s.broker.binding, role) && role != moved && step.caller == Worker(moved)
    requires t.broker == s.broker || t.broker == EvidenceBroker.Next(s.broker, step)
    requires ClientOf(t, role) == ClientOf(s, role)
    ensures Agrees(t, role)
  {
    hide Inv, EvidenceBroker.Next;
    assert Agrees(s, role);
    OthersAgree(s, step, role);
  }

  lemma ToolboxMoves(s: Desk, m: Move, role: Role)
    requires DeskInv(s) && InPack(s.broker.binding, role) && !m.Other? && m.role == role
    ensures Agrees(Next(s, m), role)
  {
    hide Inv, EvidenceBroker.Next;
    assert Agrees(s, role);
    match m
    case Ask(_, _, _, _) =>
    case Forward(_, now) => ForwardAgrees(s, role, now);
    case Serve(_, act) => if Serves(act) || (act.Return? && !ClientOf(s, role).line.Sent?) { ServeAgrees(s, role, act); }
    case Receive(_, intact, now) => ReceiveAgrees(s, role, intact, now);
    case Lose(_) =>
    case Cancel(_) =>
  }

  /** The step of the broker inside a move. */
  lemma BrokerMoves(s: Desk, m: Move) returns (step: Step)
    requires !m.Other?
    ensures step.caller == Worker(m.role)
    ensures Next(s, m).broker == s.broker || Next(s, m).broker == EvidenceBroker.Next(s.broker, step)
    ensures forall r :: r != m.role ==> ClientOf(Next(s, m), r) == ClientOf(s, r)
    ensures step.act.CallLoad? ==> m.Forward? && ClientOf(s, m.role).line.Asked? && step.act.request == ClientOf(s, m.role).line.request
  {
    hide EvidenceBroker.Next;
    var c := ClientOf(s, m.role);
    step := Step(Worker(m.role), Return);
    if m.Serve? && (Serves(m.act) || m.act.Return?) {
      step := Step(Worker(m.role), m.act);
    } else if m.Forward? && c.line.Asked? && m.role in s.broker.handles {
      step := Step(Worker(m.role), CallLoad(s.broker.binding.tenant, s.broker.binding.principal, s.broker.handles[m.role], c.line.request, m.now));
    }
  }

  lemma NextKeepsDesk(s: Desk, m: Move)
    requires DeskInv(s) && (!m.Other? ==> InPack(s.broker.binding, m.role))
    ensures DeskInv(Next(s, m))
  {
    hide Inv, EvidenceBroker.Next, Agrees;
    var t := Next(s, m);
    if m.Other? {
      if Stranger(s, m.step) {
        NextKeepsInv(s.broker, m.step);
        OnlyItsCaller(s.broker, m.step);
        StrangersServe(s, m.step);
        forall role | InPack(s.broker.binding, role) ensures Agrees(t, role) {
          OthersAgree(s, m.step, role);
        }
      }
    } else {
      var step := BrokerMoves(s, m);
      NextKeepsInv(s.broker, step);
      OnlyItsCaller(s.broker, step);
      AskedRole(s, m);
      ServedCalls(s.broker, step);
      forall role | InPack(s.broker.binding, role) ensures Agrees(t, role) {
        if role == m.role {
          ToolboxMoves(s, m, role);
        } else {
          AnotherAgrees(s, t, step, role, m.role);
        }
      }
    }
  }

  lemma AskedRole(s: Desk, m: Move)
    requires DeskInv(s) && !m.Other? && InPack(s.broker.binding, m.role)
    ensures !ClientOf(s, m.role).line.Free? ==> ClientOf(s, m.role).line.request.role == m.role
  {
    assert Agrees(s, m.role);
  }

  lemma StrangersServe(s: Desk, step: Step)
    requires DeskInv(s) && Stranger(s, step)
    ensures CallsServed(EvidenceBroker.Next(s.broker, step))
  {
    hide Inv, EvidenceBroker.Next;
    ServedCalls(s.broker, step);
  }

  // ---------------------------------------------------------------- the results

  /** Every move names a role of the pack. */
  predicate Within(binding: Binding, moves: seq<Move>) {
    forall i :: 0 <= i < |moves| ==> moves[i].Other? || InPack(binding, moves[i].role)
  }

  lemma {:induction false} DeskAlong(s: Desk, moves: seq<Move>)
    requires DeskInv(s) && Within(s.broker.binding, moves)
    ensures DeskInv(Run(Next, s, moves)) && Run(Next, s, moves).broker.binding == s.broker.binding
  {
    hide DeskInv, EvidenceBroker.Next;
    if moves != [] {
      var init, last := moves[..|moves| - 1], moves[|moves| - 1];
      DeskAlong(s, init);
      assert last == moves[|moves| - 1];
      BindingStays(Run(Next, s, init), last);
      NextKeepsDesk(Run(Next, s, init), last);
    }
  }

  lemma BindingStays(s: Desk, m: Move)
    ensures Next(s, m).broker.binding == s.broker.binding
  {
    hide EvidenceBroker.Next;
    if m.Other? {
      OnlyItsCaller(s.broker, m.step);
    } else {
      var step := BrokerMoves(s, m);
      OnlyItsCaller(s.broker, step);
    }
  }

  lemma OpeningAgrees(binding: Binding, h1: nat, h2: nat)
    ensures DeskInv(Opening(binding, h1, h2)) && Opening(binding, h1, h2).broker.binding == binding
  {
    IssueOk(binding, h1, h2);
  }

  /** Client and broker agree: however calls are served, lost, cancelled, revoked or finished, a
      toolbox that is idle and not failed holds exactly the durable receipts of its scope, in
      order, and each is stored as it was returned. */
  lemma IdleToolboxesAgree(binding: Binding, h1: nat, h2: nat, moves: seq<Move>, role: Role)
    requires Within(binding, moves) && InPack(binding, role)
    requires var c := ClientOf(Run(Next, Opening(binding, h1, h2), moves), role); !c.failed && c.line.Free?
    ensures var t := Run(Next, Opening(binding, h1, h2), moves); var c := ClientOf(t, role);
      && HasScope(t.broker.docs, role) && c.receiptIds == ScopeOf(t.broker.docs, role).receipts
      && |c.results| == |c.receiptIds|
      && forall i :: 0 <= i < |c.results| ==>
           c.results[i].id == c.receiptIds[i] && HasReceipt(t.broker.docs, c.receiptIds[i]) && ReceiptOf(t.broker.docs, c.receiptIds[i]) == c.results[i]
  {
    OpeningAgrees(binding, h1, h2);
    DeskAlong(Opening(binding, h1, h2), moves);
    assert Agrees(Run(Next, Opening(binding, h1, h2), moves), role);
  }

  lemma NoSteps(b: Broker)
    ensures Run(EvidenceBroker.Next, b, []) == b
  {
  }
}
