/** The evidence broker: durable scopes that reserve, call and record one tool at a time, against
    a controller that finishes or revokes the whole investigation. */
module EvidenceBroker {
  import opened Results
  import opened DocumentStore

  // ---------------------------------------------------------------- roles, tools, scopes

  datatype Role = DocumentAnalyst | EquipmentService | RenewalCoordinator | CoverageBilling

  datatype Pack = CertificateFulfilment | ServiceCoverageRenewal

  datatype Tool =
    | ListEquipmentDocuments | AnalyzeDocument | GetEquipmentRecord | RetrievePolicy
    | ListServiceCoverageDocuments | AnalyzeServiceCoverageDocument | RetrieveRenewalPolicy | CalculateRenewalQuote

  function FirstRole(pack: Pack): Role {
    if pack.CertificateFulfilment? then DocumentAnalyst else RenewalCoordinator
  }

  function SecondRole(pack: Pack): Role {
    if pack.CertificateFulfilment? then EquipmentService else CoverageBilling
  }

  function Allowed(role: Role): set<Tool> {
    match role
    case DocumentAnalyst => {ListEquipmentDocuments, AnalyzeDocument}
    case EquipmentService => {GetEquipmentRecord, RetrievePolicy}
    case RenewalCoordinator => {GetEquipmentRecord}
    case CoverageBilling =>
      {ListServiceCoverageDocuments, AnalyzeServiceCoverageDocument, RetrieveRenewalPolicy, CalculateRenewalQuote}
  }

  /** The analysis that must cover every scoped document before a role may be closed. */
  function MandatoryAnalyzer(role: Role): Option<Tool> {
    match role
    case DocumentAnalyst => Some(AnalyzeDocument)
    case CoverageBilling => Some(AnalyzeServiceCoverageDocument)
    case _ => None
  }

  /** Tool arguments as they arrive; a text argument is well formed or not. */
  datatype Arguments = Nothing | DocumentId(document: nat) | Query(wellFormed: bool) | BaseAmount(wellFormed: bool) | Malformed

  predicate ArgumentsFit(tool: Tool, args: Arguments, documents: set<nat>) {
    if tool.AnalyzeDocument? || tool.AnalyzeServiceCoverageDocument? then args.DocumentId? && args.document in documents
    else if tool.RetrievePolicy? || tool.RetrieveRenewalPolicy? then args.Query? && args.wellFormed
    else if tool.CalculateRenewalQuote? then args.BaseAmount? && args.wellFormed
    else args.Nothing?
  }

  /** The fixed terms of one investigation, chosen by the controller. */
  datatype Binding = Binding(
    tenant: nat, principal: nat, source: nat, documents: set<nat>, expiresAt: int, pack: Pack)

  datatype ScopeState = Open | Calling | Failed | Closed

  const CALL_BUDGET := 6
  const FAIL_ATTEMPTS := 3

  datatype Scope = Scope(
    role: Role, binding: Binding, handle: nat, state: ScopeState, calls: nat, receipts: seq<nat>)

  datatype Receipt = Receipt(id: nat, role: Role, tool: Tool, args: Arguments, source: nat, payload: nat, completedAt: int)

  datatype DocId = ScopeId(role: Role) | ReceiptId(id: nat)

  datatype Doc = ScopeDoc(scope: Scope) | ReceiptDoc(receipt: Receipt)

  type Evidence = Partition<DocId, Doc>

  predicate HasScope(p: Evidence, role: Role) {
    ScopeId(role) in p.docs && p.docs[ScopeId(role)].body.ScopeDoc?
  }

  function ScopeOf(p: Evidence, role: Role): Scope
    requires HasScope(p, role)
  {
    p.docs[ScopeId(role)].body.scope
  }

  function TagOf(p: Evidence, role: Role): nat
    requires HasScope(p, role)
  {
    p.docs[ScopeId(role)].etag
  }

  predicate HasReceipt(p: Evidence, id: nat) {
    ReceiptId(id) in p.docs && p.docs[ReceiptId(id)].body.ReceiptDoc?
  }

  function ReceiptOf(p: Evidence, id: nat): Receipt
    requires HasReceipt(p, id)
  {
    p.docs[ReceiptId(id)].body.receipt
  }

  // ---------------------------------------------------------------- the machine

  datatype Request = Request(role: Role, tool: Tool, args: Arguments)

  /** Where a caller of the broker stands. */
  datatype Position =
    | Idle
    | Reserving(request: Request, snap: Scope, tag: nat)
    | Reserved(request: Request)
    | Reading(request: Request, held: Scope, tag: nat)
    | Storing(request: Request, held: Scope, tag: nat, receipt: Receipt)
    | Answered(result: Option<Receipt>)
    | FailLoading(role: Role, tries: nat, next: Option<Role>, revoking: bool)
    | FailStoring(role: Role, tries: nat, next: Option<Role>, revoking: bool, snap: Scope, tag: nat)
    | Revoking(role: Role, next: Option<Role>)
    | Finishing(ids: map<Role, seq<nat>>, now: int)
    | FinishingSecond(ids: map<Role, seq<nat>>, first: Scope, firstTag: nat, found: seq<Receipt>)
    | Closing(first: Scope, firstTag: nat, second: Scope, secondTag: nat, found: seq<Receipt>)

  /** `finished` is what every successful `finish` returned. */
  datatype Broker = Broker(
    binding: Binding, handles: map<Role, nat>, docs: Evidence, callers: map<nat, Position>, finished: seq<seq<Receipt>>)

  function At(s: Broker, w: nat): Position {
    if w in s.callers then s.callers[w] else Idle
  }

  function Goto(s: Broker, w: nat, p: Position): Broker {
    s.(callers := s.callers[w := p])
  }

  function NewScope(role: Role, binding: Binding, handle: nat): Scope {
    Scope(role, binding, handle, Open, 0, [])
  }

  /** `issue`: both scopes are created in one batch, open and unused. */
  function Issue(binding: Binding, firstHandle: nat, secondHandle: nat): Broker {
    var first, second := FirstRole(binding.pack), SecondRole(binding.pack);
    Broker(
      binding,
      map[first := firstHandle, second := secondHandle],
      Batch(Partition(map[], 0), map[
        ScopeId(first) := Create(ScopeDoc(NewScope(first, binding, firstHandle))),
        ScopeId(second) := Create(ScopeDoc(NewScope(second, binding, secondHandle)))]),
      map[], [])
  }

  /** A write that is not `acked` takes effect, but its caller sees an error. */
  datatype Act =
    | CallLoad(tenant: nat, principal: nat, handle: nat, request: Request, now: int)
    | CallReserve(acked: bool)
    | CallConfirm
    | CallRead(payload: Option<nat>, now: int, receiptId: nat)
    | CallStore(acked: bool)
    | FailLoad
    | FailStore(acked: bool)
    | AbortLoad(binding: Binding)
    | FinishLoad(binding: Binding, ids: map<Role, seq<nat>>, now: int)
    | FinishFirst
    | FinishSecond
    | FinishStore(acked: bool)
    | Return
    | Crash

  datatype Step = Step(caller: nat, act: Act)

  /** The scope document rewritten under the tag it was read with. */
  function Rewrite(scope: Scope, tag: nat): Writes<DocId, Doc> {
    map[ScopeId(scope.role) := Replace(ScopeDoc(scope), tag)]
  }

  /** After an authenticated failure the scope itself is failed. */
  function Abandon(s: Broker, w: nat, role: Role): Broker {
    Goto(s, w, FailLoading(role, FAIL_ATTEMPTS, None, false))
  }

  function Next(s: Broker, step: Step): Broker {
    var w, p := step.caller, At(s, step.caller);
    match step.act
    case CallLoad(tenant, principal, handle, request, now) =>
      if p.Idle? then NextCall(s, w, tenant, principal, handle, request, now) else s
    case CallReserve(acked) => if p.Reserving? then NextReserve(s, w, p, acked) else s
    case CallConfirm => if p.Reserved? then NextConfirm(s, w, p) else s
    case CallRead(payload, now, id) => if p.Reading? then NextRead(s, w, p, payload, now, id) else s
    case CallStore(acked) => if p.Storing? then NextStore(s, w, p, acked) else s
    case FailLoad => if p.FailLoading? then NextFailLoad(s, w, p) else s
    case FailStore(acked) => if p.FailStoring? then NextFailStore(s, w, p, acked) else s
    case AbortLoad(binding) => NextAbort(s, w, p, binding)
    case FinishLoad(binding, ids, now) =>
      if p.Idle? && binding == s.binding && ids.Keys == {FirstRole(binding.pack), SecondRole(binding.pack)} && now < binding.expiresAt
      then Goto(s, w, Finishing(ids, now)) else s
    case FinishFirst => if p.Finishing? then NextFinishFirst(s, w, p) else s
    case FinishSecond => if p.FinishingSecond? then NextFinishSecond(s, w, p) else s
    case FinishStore(acked) => if p.Closing? then NextClose(s, w, p, acked) else s
    case Return => if p.Answered? then Goto(s, w, Idle) else s
    case Crash => Goto(s, w, Idle)
  }

  /** `call` up to its reservation. Only a caller that proved who it is can fail the scope. */
  function NextCall(s: Broker, w: nat, tenant: nat, principal: nat, handle: nat, request: Request, now: int): Broker {
    if !HasScope(s.docs, request.role) then Goto(s, w, Answered(None))
    else
      var scope := ScopeOf(s.docs, request.role);
      if scope.binding.tenant != tenant || scope.binding.principal != principal || scope.handle != handle
      then Goto(s, w, Answered(None))
      else if !scope.state.Open? || now >= scope.binding.expiresAt || scope.calls >= CALL_BUDGET
        || request.tool !in Allowed(request.role) || !ArgumentsFit(request.tool, request.args, scope.binding.documents)
      then Abandon(s, w, request.role)
      else Goto(s, w, Reserving(request, scope, TagOf(s.docs, request.role)))
  }

  function NextReserve(s: Broker, w: nat, p: Position, acked: bool): Broker
    requires p.Reserving?
  {
    var writes := Rewrite(p.snap.(state := Calling, calls := p.snap.calls + 1), p.tag);
    if Admits(s.docs, writes) && acked then Goto(s.(docs := Batch(s.docs, writes)), w, Reserved(p.request))
    else if Admits(s.docs, writes) then Abandon(s.(docs := Batch(s.docs, writes)), w, p.request.role)
    else Abandon(s, w, p.request.role)
  }

  function NextConfirm(s: Broker, w: nat, p: Position): Broker
    requires p.Reserved?
  {
    if HasScope(s.docs, p.request.role) && ScopeOf(s.docs, p.request.role).state.Calling?
    then Goto(s, w, Reading(p.request, ScopeOf(s.docs, p.request.role), TagOf(s.docs, p.request.role)))
    else Abandon(s, w, p.request.role)
  }

  /** The evidence read itself, and the receipt drawn up for it. */
  function NextRead(s: Broker, w: nat, p: Position, payload: Option<nat>, now: int, id: nat): Broker
    requires p.Reading?
  {
    if payload.None? || now >= p.held.binding.expiresAt then Abandon(s, w, p.request.role)
    else
      Goto(s, w, Storing(p.request, p.held, p.tag,
        Receipt(id, p.request.role, p.request.tool, p.request.args, p.held.binding.source, payload.value, now)))
  }

  /** The scope reopens and the receipt is created in one batch, or neither. */
  function ReceiptWrites(held: Scope, tag: nat, receipt: Receipt): Writes<DocId, Doc> {
    map[ScopeId(held.role) := Replace(ScopeDoc(held.(state := Open, receipts := held.receipts + [receipt.id])), tag),
        ReceiptId(receipt.id) := Create(ReceiptDoc(receipt))]
  }

  function NextStore(s: Broker, w: nat, p: Position, acked: bool): Broker
    requires p.Storing?
  {
    var writes := ReceiptWrites(p.held, p.tag, p.receipt);
    if Admits(s.docs, writes) && acked then Goto(s.(docs := Batch(s.docs, writes)), w, Answered(Some(p.receipt)))
    else if Admits(s.docs, writes) then Abandon(s.(docs := Batch(s.docs, writes)), w, p.request.role)
    else Abandon(s, w, p.request.role)
  }

  /** One reading of `_fail`: a failed or closed scope is left alone. */
  function NextFailLoad(s: Broker, w: nat, p: Position): Broker
    requires p.FailLoading?
  {
    if p.tries == 0 || !HasScope(s.docs, p.role) then Goto(s, w, Answered(None))
    else
      var scope := ScopeOf(s.docs, p.role);
      if scope.state.Failed? || scope.state.Closed? then FailDone(s, w, p.next, p.revoking)
      else Goto(s, w, FailStoring(p.role, p.tries, p.next, p.revoking, scope, TagOf(s.docs, p.role)))
  }

  function NextFailStore(s: Broker, w: nat, p: Position, acked: bool): Broker
    requires p.FailStoring?
  {
    var writes := Rewrite(p.snap.(state := Failed), p.tag);
    if Admits(s.docs, writes) && acked then FailDone(s.(docs := Batch(s.docs, writes)), w, p.next, p.revoking)
    else if Admits(s.docs, writes) then Goto(s.(docs := Batch(s.docs, writes)), w, Answered(None))
    else Goto(s, w, FailLoading(p.role, p.tries - if p.tries > 0 then 1 else 0, p.next, p.revoking))
  }

  function FailDone(s: Broker, w: nat, next: Option<Role>, revoking: bool): Broker {
    if revoking && next.Some? then Goto(s, w, Revoking(next.value, None)) else Goto(s, w, Answered(None))
  }

  /** `abort`: each scope of the binding in turn. */
  function NextAbort(s: Broker, w: nat, p: Position, binding: Binding): Broker {
    if p.Idle? then Goto(s, w, Revoking(FirstRole(s.binding.pack), Some(SecondRole(s.binding.pack))))
    else if p.Revoking? then
      if binding != s.binding then Goto(s, w, Answered(None))
      else Goto(s, w, FailLoading(p.role, FAIL_ATTEMPTS, p.next, true))
    else s
  }

  // ---------------------------------------------------------------- finish

  predicate AllHeld(p: Evidence, ids: seq<nat>) {
    forall i :: 0 <= i < |ids| ==> HasReceipt(p, ids[i])
  }

  /** Receipts are created once and never rewritten, so reading them together or one at a time
      is the same. */
  function ReadReceipts(p: Evidence, ids: seq<nat>): (r: seq<Receipt>)
    requires AllHeld(p, ids)
    ensures |r| == |ids| && forall i :: 0 <= i < |ids| ==> r[i] == ReceiptOf(p, ids[i])
  {
    if ids == [] then [] else ReadReceipts(p, ids[..|ids| - 1]) + [ReceiptOf(p, ids[|ids| - 1])]
  }

  predicate Distinct(ids: seq<nat>) {
    forall i, j :: 0 <= i < j < |ids| ==> ids[i] != ids[j]
  }

  function ToolsOf(found: seq<Receipt>): set<Tool> {
    set r | r in found :: r.tool
  }

  function Analyzed(found: seq<Receipt>, analyzer: Tool): set<nat> {
    set r | r in found && r.tool == analyzer && r.args.DocumentId? :: r.args.document
  }

  /** What `finish` demands of one role's receipts. */
  predicate CompleteRole(binding: Binding, role: Role, found: seq<Receipt>) {
    && (forall r :: r in found ==> r.role == role && r.source == binding.source)
    && ToolsOf(found) == Allowed(role)
    && (MandatoryAnalyzer(role).Some? ==> Analyzed(found, MandatoryAnalyzer(role).value) == binding.documents)
  }

  /** One role of `finish`: the scope as read and its receipts, or None where it raises. */
  function ReadRole(s: Broker, role: Role, ids: seq<nat>): Option<(Scope, nat, seq<Receipt>)> {
    if !HasScope(s.docs, role) then None
    else
      var scope := ScopeOf(s.docs, role);
      if scope.binding != s.binding || !scope.state.Open? || ids == [] || ids != scope.receipts || !Distinct(ids) then None
      else if !AllHeld(s.docs, ids) then None
      else
        var found := ReadReceipts(s.docs, ids);
        if CompleteRole(s.binding, role, found) then Some((scope, TagOf(s.docs, role), found)) else None
  }

  function NextFinishFirst(s: Broker, w: nat, p: Position): Broker
    requires p.Finishing?
  {
    var role := FirstRole(s.binding.pack);
    if role !in p.ids then Goto(s, w, Idle)
    else
      match ReadRole(s, role, p.ids[role])
      case None => Goto(s, w, Idle)
      case Some((scope, tag, found)) => Goto(s, w, FinishingSecond(p.ids, scope, tag, found))
  }

  function NextFinishSecond(s: Broker, w: nat, p: Position): Broker
    requires p.FinishingSecond?
  {
    var role := SecondRole(s.binding.pack);
    if role !in p.ids then Goto(s, w, Idle)
    else
      match ReadRole(s, role, p.ids[role])
      case None => Goto(s, w, Idle)
      case Some((scope, tag, found)) => Goto(s, w, Closing(p.first, p.firstTag, scope, tag, p.found + found))
  }

  function CloseWrites(first: Scope, firstTag: nat, second: Scope, secondTag: nat): Writes<DocId, Doc> {
    map[ScopeId(first.role) := Replace(ScopeDoc(first.(state := Closed)), firstTag),
        ScopeId(second.role) := Replace(ScopeDoc(second.(state := Closed)), secondTag)]
  }

  function NextClose(s: Broker, w: nat, p: Position, acked: bool): Broker
    requires p.Closing?
  {
    var writes := CloseWrites(p.first, p.firstTag, p.second, p.secondTag);
    if Admits(s.docs, writes)
    then Goto(s.(docs := Batch(s.docs, writes), finished := s.finished + if acked then [p.found] else []), w, Idle)
    else Goto(s, w, Idle)
  }
}
