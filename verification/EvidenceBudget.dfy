/** How many documents an investigation can cover: the bound that six calls a role leave is exact. */
module EvidenceBudget {
  import opened Results
  import opened DocumentStore
  import opened EvidenceBroker
  import opened EvidenceSafety
  import opened EvidenceHistory
  import opened Traces
  import Team = EvidenceTeam

  /** One call from its first read to its answer, with no one in between. */
  function CallAlone(b: Binding, w: nat, handle: nat, request: Request, now: int, id: nat): seq<Step> {
    [Step(w, CallLoad(b.tenant, b.principal, handle, request, now)), Step(w, CallReserve(true)), Step(w, CallConfirm),
     Step(w, CallRead(Some(0), now, id)), Step(w, CallStore(true)), Step(w, Return)]
  }

  function ReceiptFor(b: Binding, request: Request, now: int, id: nat): Receipt {
    Receipt(id, request.role, request.tool, request.args, b.source, 0, now)
  }

  /** The scope is as it was, with one receipt more. */
  ghost predicate Added(s: Broker, t: Broker, w: nat, r: Receipt) {
    && HasScope(s.docs, r.role) && HasScope(t.docs, r.role)
    && var before, after := ScopeOf(s.docs, r.role), ScopeOf(t.docs, r.role);
    && after == before.(calls := before.calls + 1, receipts := before.receipts + [r.id])
    && HasReceipt(t.docs, r.id) && ReceiptOf(t.docs, r.id) == r
    && (forall k :: k in s.docs.docs && k != ScopeId(r.role) ==> k in t.docs.docs && t.docs.docs[k] == s.docs.docs[k])
    && (forall k :: k in t.docs.docs ==> k in s.docs.docs || k == ReceiptId(r.id))
    && t.binding == s.binding && t.handles == s.handles && t.finished == s.finished
    && (forall v :: At(t, v) == if v == w then Idle else At(s, v))
  }

  function BeforeReturn(s: Broker, steps: seq<Step>): Broker
    requires |steps| == 6
  {
    Next(Next(Next(Next(Next(s, steps[0]), steps[1]), steps[2]), steps[3]), steps[4])
  }

  lemma SixSteps(s: Broker, steps: seq<Step>)
    requires |steps| == 6
    ensures Run(Next, s, steps) == Next(Next(Next(Next(Next(Next(s, steps[0]), steps[1]), steps[2]), steps[3]), steps[4]), steps[5])
  {
    hide Next;
    assert steps == steps[..4] + steps[4..];
    RunAppend(Next, s, steps[..4], steps[4..]);
    Team.FourSteps(s, steps[..4]);
    var t := Run(Next, s, steps[..4]);
    assert steps[4..] == [steps[4]] + [steps[5]];
    RunAppend(Next, t, [steps[4]], [steps[5]]);
    RunOne(Next, t, steps[4]);
    RunOne(Next, Next(t, steps[4]), steps[5]);
  }

  /** The reservation half. */
  lemma Reserves(s: Broker, w: nat, request: Request, now: int)
    requires Inv(s) && At(s, w).Idle? && InPack(s.binding, request.role) && Usable(s, request, now)
    ensures HasScope(s.docs, request.role)
    ensures var scope := ScopeOf(s.docs, request.role); var held := scope.(state := Calling, calls := scope.calls + 1);
      var s1 := Next(s, Step(w, CallLoad(s.binding.tenant, s.binding.principal, scope.handle, request, now)));
      var s2 := Next(s1, Step(w, CallReserve(true)));
      var writes := Rewrite(held, TagOf(s.docs, request.role));
      && scope.role == request.role
      && s2.docs == Batch(s.docs, writes) && Admits(s.docs, writes)
      && At(s2, w) == Reserved(request) && s2 == s.(docs := s2.docs, callers := s2.callers)
      && (forall v :: v != w ==> At(s2, v) == At(s, v))
  {
    hide OneOwner, Ends, PositionOk, ReceiptsOk, Batch, ArgumentsFit, Allowed;
    assert ScopeOk(s, request.role);
  }

  ghost predicate Usable(s: Broker, request: Request, now: int) {
    && HasScope(s.docs, request.role)
    && var scope := ScopeOf(s.docs, request.role);
    && scope.state.Open? && scope.calls < CALL_BUDGET && now < s.binding.expiresAt
    && request.tool in Allowed(request.role) && ArgumentsFit(request.tool, request.args, s.binding.documents)
  }

  /** The other half: the receipt. */
  lemma Files(s: Broker, w: nat, request: Request, held: Scope, now: int, id: nat)
    requires At(s, w) == Reserved(request) && HasScope(s.docs, request.role) && ScopeOf(s.docs, request.role) == held
    requires held.state.Calling? && held.role == request.role && held.binding == s.binding && now < s.binding.expiresAt
    requires ReceiptId(id) !in s.docs.docs
    ensures var s3 := Next(s, Step(w, CallConfirm));
      var s4 := Next(s3, Step(w, CallRead(Some(0), now, id)));
      var s5 := Next(s4, Step(w, CallStore(true)));
      var s6 := Next(s5, Step(w, Return));
      var writes := ReceiptWrites(held, TagOf(s.docs, request.role), ReceiptFor(s.binding, request, now, id));
      && Admits(s.docs, writes) && s6.docs == Batch(s.docs, writes)
      && At(s5, w) == Answered(Some(ReceiptFor(s.binding, request, now, id))) && s5.binding == s.binding
      && s6 == s.(docs := s6.docs, callers := s6.callers)
      && (forall v :: At(s6, v) == if v == w then Idle else At(s, v))
  {
    hide Batch;
  }

  lemma CallAdds(s: Broker, w: nat, request: Request, now: int, id: nat)
    requires Inv(s) && At(s, w).Idle? && InPack(s.binding, request.role) && Usable(s, request, now) && ReceiptId(id) !in s.docs.docs
    ensures Added(s, Run(Next, s, CallAlone(s.binding, w, ScopeOf(s.docs, request.role).handle, request, now, id)), w, ReceiptFor(s.binding, request, now, id))
  {
    hide Inv, Next, Admits, Batch, Rewrite, ReceiptWrites, Usable, Run;
    Reserves(s, w, request, now);
    var scope := ScopeOf(s.docs, request.role);
    var steps := CallAlone(s.binding, w, scope.handle, request, now, id);
    SixSteps(s, steps);
    var held := scope.(state := Calling, calls := scope.calls + 1);
    var s2 := Next(Next(s, steps[0]), steps[1]);
    RewriteContents(s.docs, held, TagOf(s.docs, request.role));
    OpenScopeFacts(s, request, now);
    Files(s2, w, request, held, now, id);
    ReceiptContents(s2.docs, held, TagOf(s2.docs, request.role), ReceiptFor(s.binding, request, now, id));
  }

  /** Just before it returns, the caller holds its receipt. */
  lemma CallAnswers(s: Broker, w: nat, request: Request, now: int, id: nat)
    requires Inv(s) && At(s, w).Idle? && InPack(s.binding, request.role) && Usable(s, request, now) && ReceiptId(id) !in s.docs.docs
    ensures var b := BeforeReturn(s, CallAlone(s.binding, w, ScopeOf(s.docs, request.role).handle, request, now, id));
      At(b, w) == Answered(Some(ReceiptFor(s.binding, request, now, id))) && b.binding == s.binding
  {
    hide Inv, Next, Admits, Batch, Rewrite, ReceiptWrites, Usable;
    Reserves(s, w, request, now);
    var scope := ScopeOf(s.docs, request.role);
    var steps := CallAlone(s.binding, w, scope.handle, request, now, id);
    var held := scope.(state := Calling, calls := scope.calls + 1);
    var s2 := Next(Next(s, steps[0]), steps[1]);
    RewriteContents(s.docs, held, TagOf(s.docs, request.role));
    OpenScopeFacts(s, request, now);
    Files(s2, w, request, held, now, id);
  }

  lemma OpenScopeFacts(s: Broker, request: Request, now: int)
    requires Inv(s) && InPack(s.binding, request.role) && Usable(s, request, now)
    ensures ScopeOf(s.docs, request.role).binding == s.binding && ScopeOf(s.docs, request.role).state.Open? && now < s.binding.expiresAt
  {
    hide OneOwner, Ends, PositionOk, ReceiptsOk;
    assert ScopeOk(s, request.role);
  }

  lemma RewriteContents(p: Evidence, scope: Scope, tag: nat)
    requires Admits(p, Rewrite(scope, tag))
    ensures var q := Batch(p, Rewrite(scope, tag));
      && HasScope(q, scope.role) && ScopeOf(q, scope.role) == scope
      && (forall k :: k in p.docs && k != ScopeId(scope.role) ==> k in q.docs && q.docs[k] == p.docs[k])
      && (forall k :: k in q.docs ==> k in p.docs)
  {
    var writes := Rewrite(scope, tag);
    BatchContents(p, writes);
    assert ScopeId(scope.role) in writes;
  }

  lemma ReceiptContents(p: Evidence, held: Scope, tag: nat, r: Receipt)
    requires Admits(p, ReceiptWrites(held, tag, r)) && r.role == held.role
    ensures var q := Batch(p, ReceiptWrites(held, tag, r));
      && HasScope(q, held.role) && ScopeOf(q, held.role) == held.(state := Open, receipts := held.receipts + [r.id])
      && HasReceipt(q, r.id) && ReceiptOf(q, r.id) == r
      && (forall k :: k in p.docs && k != ScopeId(held.role) ==> k in q.docs && q.docs[k] == p.docs[k])
      && (forall k :: k in q.docs ==> k in p.docs || k == ReceiptId(r.id))
  {
    var writes := ReceiptWrites(held, tag, r);
    BatchContents(p, writes);
    assert ScopeId(held.role) in writes && ReceiptId(r.id) in writes;
  }

  // ---------------------------------------------------------------- a list of calls

  predicate Fits(b: Binding, role: Role, requests: seq<Request>) {
    forall i :: 0 <= i < |requests| ==>
      requests[i].role == role && requests[i].tool in Allowed(role) && ArgumentsFit(requests[i].tool, requests[i].args, b.documents)
  }

  function IdsFrom(first: nat, n: nat): seq<nat> {
    seq(n, i requires 0 <= i < n => first + i)
  }

  function ReceiptsFor(b: Binding, requests: seq<Request>, now: int, first: nat): seq<Receipt> {
    seq(|requests|, i requires 0 <= i < |requests| => ReceiptFor(b, requests[i], now, first + i))
  }

  ghost predicate Unused(p: Evidence, first: nat) {
    forall id: nat :: first <= id ==> ReceiptId(id) !in p.docs
  }

  predicate FiledAt(b: Binding, p: Evidence, requests: seq<Request>, now: int, first: nat, i: nat)
    requires i < |requests|
  {
    HasReceipt(p, first + i) && ReceiptOf(p, first + i) == ReceiptFor(b, requests[i], now, first + i)
  }

  ghost predicate Collected(s: Broker, t: Broker, role: Role, requests: seq<Request>, now: int, first: nat) {
    && HasScope(s.docs, role) && HasScope(t.docs, role)
    && var before, after := ScopeOf(s.docs, role), ScopeOf(t.docs, role);
    && after == before.(calls := before.calls + |requests|, receipts := before.receipts + IdsFrom(first, |requests|))
    && (forall i :: 0 <= i < |requests| ==> FiledAt(s.binding, t.docs, requests, now, first, i))
    && (forall k :: k in s.docs.docs && k != ScopeId(role) ==> k in t.docs.docs && t.docs.docs[k] == s.docs.docs[k])
    && Unused(t.docs, first + |requests|)
    && t.binding == s.binding && t.handles == s.handles && t.finished == s.finished && (forall v :: At(t, v) == At(s, v))
  }

  lemma {:induction false} CallsAdd(s: Broker, w: nat, role: Role, requests: seq<Request>, now: int, first: nat) returns (steps: seq<Step>)
    requires Inv(s) && At(s, w).Idle? && InPack(s.binding, role) && Fits(s.binding, role, requests) && now < s.binding.expiresAt
    requires HasScope(s.docs, role) && ScopeOf(s.docs, role).state.Open? && ScopeOf(s.docs, role).calls + |requests| <= CALL_BUDGET
    requires Unused(s.docs, first)
    ensures Inv(Run(Next, s, steps)) && Collected(s, Run(Next, s, steps), role, requests, now, first)
  {
    hide Inv, Next, Allowed, ArgumentsFit;
    if requests == [] {
      steps := [];
      assert IdsFrom(first, 0) == [];
    } else {
      var n := |requests| - 1;
      var init, last := requests[..n], requests[n];
      var before := CallsAdd(s, w, role, init, now, first);
      var t := Run(Next, s, before);
      assert |init| == n && Unused(t.docs, first + n);
      assert first <= first + n && ReceiptId(first + n) !in t.docs.docs;
      var more := CallAlone(t.binding, w, ScopeOf(t.docs, role).handle, last, now, first + n);
      CallAdds(t, w, last, now, first + n);
      steps := before + more;
      RunAppend(Next, s, before, more);
      HistoryOnlyGrows(s, steps);
      OneMoreCollected(s, t, Run(Next, t, more), w, role, requests, now, first);
    }
  }

  lemma OneMoreCollected(s: Broker, t: Broker, u: Broker, w: nat, role: Role, requests: seq<Request>, now: int, first: nat)
    requires |requests| > 0 && requests[|requests| - 1].role == role && At(s, w).Idle?
    requires var n := |requests| - 1;
      Collected(s, t, role, requests[..n], now, first) && Added(t, u, w, ReceiptFor(t.binding, requests[n], now, first + n))
    ensures Collected(s, u, role, requests, now, first)
  {
    var n := |requests| - 1;
    assert |requests[..n]| == n;
    assert Unused(t.docs, first + n);
    assert IdsFrom(first, n + 1) == IdsFrom(first, n) + [first + n];
    forall id: nat | first + n + 1 <= id ensures ReceiptId(id) !in u.docs.docs {
      assert ReceiptId(id) !in t.docs.docs;
    }
    assert Unused(u.docs, first + |requests|);
    assert ScopeOf(u.docs, role).receipts == ScopeOf(s.docs, role).receipts + IdsFrom(first, n + 1);
    forall i | 0 <= i < |requests| ensures FiledAt(s.binding, u.docs, requests, now, first, i) {
      if i < n {
        assert FiledAt(s.binding, t.docs, requests[..n], now, first, i);
        assert ReceiptId(first + i) in t.docs.docs;
      }
    }
  }

  // ---------------------------------------------------------------- what each role calls

  function Analyses(role: Role, analyzer: Tool, docs: seq<nat>): seq<Request> {
    seq(|docs|, i requires 0 <= i < |docs| => Request(role, analyzer, DocumentId(docs[i])))
  }

  /** Every tool once, and the analysis for every document. */
  function Plan(role: Role, docs: seq<nat>): seq<Request> {
    match role
    case DocumentAnalyst => [Request(role, ListEquipmentDocuments, Nothing)] + Analyses(role, AnalyzeDocument, docs)
    case EquipmentService => [Request(role, GetEquipmentRecord, Nothing), Request(role, RetrievePolicy, Query(true))]
    case RenewalCoordinator => [Request(role, GetEquipmentRecord, Nothing)]
    case CoverageBilling =>
      [Request(role, ListServiceCoverageDocuments, Nothing), Request(role, RetrieveRenewalPolicy, Query(true)),
       Request(role, CalculateRenewalQuote, BaseAmount(true))] + Analyses(role, AnalyzeServiceCoverageDocument, docs)
  }

  ghost predicate Lists(b: Binding, docs: seq<nat>) {
    forall d :: d in docs <==> d in b.documents
  }

  lemma PlanFits(b: Binding, role: Role, docs: seq<nat>)
    requires forall d :: d in docs ==> d in b.documents
    ensures Fits(b, role, Plan(role, docs)) && Plan(role, docs) != []
  {
  }

  lemma PlanUses(role: Role, docs: seq<nat>, tool: Tool) returns (i: nat)
    requires tool in Allowed(role) && docs != []
    ensures i < |Plan(role, docs)| && Plan(role, docs)[i].tool == tool
  {
    var plan := Plan(role, docs);
    i := if plan[0].tool == tool then 0 else if plan[|plan| - 1].tool == tool then |plan| - 1
         else if plan[1].tool == tool then 1 else 2;
  }

  lemma PlanIsComplete(b: Binding, role: Role, docs: seq<nat>, now: int, first: nat)
    requires Lists(b, docs) && docs != []
    ensures CompleteRole(b, role, ReceiptsFor(b, Plan(role, docs), now, first))
  {
    var plan := Plan(role, docs);
    var found := ReceiptsFor(b, plan, now, first);
    forall tool | tool in Allowed(role) ensures tool in ToolsOf(found) {
      var i := PlanUses(role, docs, tool);
      assert found[i] in found;
    }
    var analyzer := MandatoryAnalyzer(role);
    if analyzer.Some? {
      forall d | d in b.documents ensures d in Analyzed(found, analyzer.value) {
        var i :| 0 <= i < |docs| && docs[i] == d;
        assert plan[|plan| - |docs| + i] == Request(role, analyzer.value, DocumentId(d));
        assert found[|plan| - |docs| + i] in found;
      }
    }
  }

  lemma {:induction false} Listed(documents: set<nat>) returns (docs: seq<nat>)
    ensures |docs| == |documents| && forall d :: d in docs <==> d in documents
  {
    if documents == {} {
      docs := [];
    } else {
      var d :| d in documents;
      var rest := Listed(documents - {d});
      docs := rest + [d];
    }
  }

  // ---------------------------------------------------------------- the bound is exact

  function DocumentLimit(pack: Pack): nat {
    if pack.CertificateFulfilment? then 5 else 3
  }

  lemma IssueIsOpen(binding: Binding, h1: nat, h2: nat)
    ensures var s := Issue(binding, h1, h2); var r1, r2 := FirstRole(binding.pack), SecondRole(binding.pack);
      && Inv(s) && Unused(s.docs, 0) && s.binding == binding && s.finished == [] && (forall v :: At(s, v) == Idle)
      && HasScope(s.docs, r1) && ScopeOf(s.docs, r1) == NewScope(r1, binding, h1)
      && HasScope(s.docs, r2) && ScopeOf(s.docs, r2) == NewScope(r2, binding, h2)
  {
    IssueOk(binding, h1, h2);
    var a, b := FirstRole(binding.pack), SecondRole(binding.pack);
    var writes: Writes<DocId, Doc> := map[
      ScopeId(a) := Create(ScopeDoc(NewScope(a, binding, h1))),
      ScopeId(b) := Create(ScopeDoc(NewScope(b, binding, h2)))];
    assert ScopeId(a) in writes && ScopeId(b) in writes;
    BatchContents(Partition(map[], 0), writes);
  }

  lemma CollectedReceipts(s: Broker, t: Broker, role: Role, requests: seq<Request>, now: int, first: nat)
    requires Collected(s, t, role, requests, now, first)
    ensures var ids := IdsFrom(first, |requests|);
      && |ids| == |requests| && AllHeld(t.docs, ids) && Distinct(ids)
      && ReadReceipts(t.docs, ids) == ReceiptsFor(s.binding, requests, now, first)
  {
    hide ArgumentsFit, Allowed;
    var ids, found := IdsFrom(first, |requests|), ReceiptsFor(s.binding, requests, now, first);
    forall i | 0 <= i < |ids| ensures HasReceipt(t.docs, ids[i]) && ReceiptOf(t.docs, ids[i]) == found[i] {
      assert FiledAt(s.binding, t.docs, requests, now, first, i);
    }
  }

  lemma CollectedScope(s: Broker, t: Broker, role: Role, requests: seq<Request>, now: int, first: nat, handle: nat)
    requires HasScope(s.docs, role) && ScopeOf(s.docs, role) == NewScope(role, s.binding, handle)
    requires Collected(s, t, role, requests, now, first)
    ensures HasScope(t.docs, role) && t.binding == s.binding
    ensures var after := ScopeOf(t.docs, role); after.binding == s.binding && after.state.Open? && after.receipts == IdsFrom(first, |requests|)
  {
  }

  /** The calls of a role on a fresh scope leave a role that reads as complete. */
  lemma CollectedReads(s: Broker, t: Broker, role: Role, docs: seq<nat>, now: int, first: nat, handle: nat)
    requires HasScope(s.docs, role) && ScopeOf(s.docs, role) == NewScope(role, s.binding, handle)
    requires Collected(s, t, role, Plan(role, docs), now, first) && Lists(s.binding, docs) && docs != []
    ensures HasScope(t.docs, role)
    ensures var ids := IdsFrom(first, |Plan(role, docs)|);
      ReadRole(t, role, ids) == Some((ScopeOf(t.docs, role), TagOf(t.docs, role), ReceiptsFor(s.binding, Plan(role, docs), now, first)))
  {
    hide CompleteRole, Plan, Collected, IdsFrom, ReceiptsFor, ReadReceipts, AllHeld, Distinct;
    PlanFits(s.binding, role, docs);
    PlanIsComplete(s.binding, role, docs, now, first);
    CollectedReceipts(s, t, role, Plan(role, docs), now, first);
    CollectedScope(s, t, role, Plan(role, docs), now, first, handle);
  }

  /** What the other role collects leaves this one as it was read. */
  lemma ReadsStay(s: Broker, t: Broker, role: Role, other: Role, requests: seq<Request>, now: int, first: nat, ids: seq<nat>)
    requires role != other && Collected(s, t, other, requests, now, first) && ReadRole(s, role, ids).Some?
    ensures ReadRole(t, role, ids) == ReadRole(s, role, ids)
  {
    hide CompleteRole, Distinct;
    assert ScopeId(role) in s.docs.docs;
    forall i | 0 <= i < |ids| ensures HasReceipt(t.docs, ids[i]) && ReceiptOf(t.docs, ids[i]) == ReceiptOf(s.docs, ids[i]) {
      assert HasReceipt(s.docs, ids[i]) && ReceiptId(ids[i]) in s.docs.docs;
    }
    assert ReadReceipts(t.docs, ids) == ReadReceipts(s.docs, ids);
  }

  lemma PlanLength(binding: Binding, docs: seq<nat>)
    requires |docs| <= DocumentLimit(binding.pack)
    ensures |Plan(FirstRole(binding.pack), docs)| <= CALL_BUDGET && |Plan(SecondRole(binding.pack), docs)| <= CALL_BUDGET
  {
  }

  /** Up to the limit there is a run that finishes: each specialist calls what it must, and the
      controller closes. */
  lemma InvestigationsCanFinish(binding: Binding, h1: nat, h2: nat) returns (steps: seq<Step>)
    requires 1 <= |binding.documents| <= DocumentLimit(binding.pack)
    ensures Run(Next, Issue(binding, h1, h2), steps).finished != []
  {
    hide Inv, Next, Plan, Issue, ReadRole, Collected, Run;
    var r1, r2 := FirstRole(binding.pack), SecondRole(binding.pack);
    var docs := Listed(binding.documents);
    var plan1, plan2, now := Plan(r1, docs), Plan(r2, docs), binding.expiresAt - 1;
    var s := Issue(binding, h1, h2);
    IssueIsOpen(binding, h1, h2);
    PlanFits(binding, r1, docs);
    PlanFits(binding, r2, docs);
    PlanLength(binding, docs);
    var first := CallsAdd(s, 0, r1, plan1, now, 0);
    var t := Run(Next, s, first);
    CollectedReads(s, t, r1, docs, now, 0, h1);
    CollectedFacts(s, t, r1, r2, plan1, now, 0);
    ScopesNamed(t);
    var second := CallsAdd(t, 0, r2, plan2, now, |plan1|);
    var u := Run(Next, t, second);
    CollectedReads(t, u, r2, docs, now, |plan1|, h2);
    ReadsStay(t, u, r1, r2, plan2, now, |plan1|, IdsFrom(0, |plan1|));
    CollectedFacts(t, u, r2, r1, plan2, now, |plan1|);
    var ids := map[r1 := IdsFrom(0, |plan1|), r2 := IdsFrom(|plan1|, |plan2|)];
    ScopesNamed(u);
    Team.FinishDecides(u, 0, ids, now);
    var last := Team.FinishCall(binding, 0, ids, now);
    steps := first + (second + last);
    RunAppend(Next, t, second, last);
    RunAppend(Next, s, first, second + last);
  }

  lemma ScopesNamed(s: Broker)
    requires Inv(s)
    ensures forall role :: InPack(s.binding, role) ==> HasScope(s.docs, role) && ScopeOf(s.docs, role).role == role
  {
    hide OneOwner, Ends, PositionOk, ReceiptsOk;
    assert ScopeOk(s, FirstRole(s.binding.pack)) && ScopeOk(s, SecondRole(s.binding.pack));
  }

  lemma CollectedFacts(s: Broker, t: Broker, role: Role, other: Role, requests: seq<Request>, now: int, first: nat)
    requires Collected(s, t, role, requests, now, first) && other != role && HasScope(s.docs, other)
    ensures t.binding == s.binding && t.finished == s.finished && Unused(t.docs, first + |requests|) && (forall v :: At(t, v) == At(s, v))
    ensures HasScope(t.docs, other) && ScopeOf(t.docs, other) == ScopeOf(s.docs, other)
  {
    assert ScopeId(other) in s.docs.docs;
  }

  /** A finished investigation analysed something. */
  lemma NothingToAnalyse(binding: Binding, found: seq<Receipt>, role: Role)
    requires CompleteRole(binding, role, found) && MandatoryAnalyzer(role).Some?
    requires forall r :: r in found ==> Genuine(binding, r)
    ensures binding.documents != {}
  {
    var analyzer := MandatoryAnalyzer(role).value;
    assert analyzer in ToolsOf(found);
    var r :| r in found && r.tool == analyzer;
    assert r.args.document in binding.documents;
  }

  /** Six calls a role are enough exactly for one to five documents of a certificate, and for one
      to three of a coverage renewal: with any other number no run ever finishes. */
  lemma BudgetIsExact(binding: Binding, h1: nat, h2: nat)
    ensures (exists steps :: Run(Next, Issue(binding, h1, h2), steps).finished != []) <==> 1 <= |binding.documents| <= DocumentLimit(binding.pack)
  {
    if 1 <= |binding.documents| <= DocumentLimit(binding.pack) {
      var steps := InvestigationsCanFinish(binding, h1, h2);
    }
    forall steps | Run(Next, Issue(binding, h1, h2), steps).finished != [] ensures 1 <= |binding.documents| <= DocumentLimit(binding.pack) {
      FinishedNeeds(binding, h1, h2, steps);
    }
  }

  lemma FinishedNeeds(binding: Binding, h1: nat, h2: nat, steps: seq<Step>)
    requires Run(Next, Issue(binding, h1, h2), steps).finished != []
    ensures 1 <= |binding.documents| <= DocumentLimit(binding.pack)
  {
    hide Next, Issue, CompleteRole, Genuine, ReadReceipts;
    BudgetBoundsDocuments(binding, h1, h2, steps);
    FinishedIsComplete(binding, h1, h2, steps);
    var t := Run(Next, Issue(binding, h1, h2), steps);
    var r1, r2 := FirstRole(binding.pack), SecondRole(binding.pack);
    var a, b := ReadReceipts(t.docs, ScopeOf(t.docs, r1).receipts), ReadReceipts(t.docs, ScopeOf(t.docs, r2).receipts);
    if binding.pack.CertificateFulfilment? {
      NothingToAnalyse(binding, a, r1);
    } else {
      NothingToAnalyse(binding, b, r2);
    }
  }
}
