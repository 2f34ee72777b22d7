/** What holds between two points of a run of the evidence broker, and what a finished
    investigation is worth. */
module EvidenceHistory {
  import opened Results
  import opened DocumentStore
  import opened EvidenceBroker
  import opened EvidenceSafety
  import opened Traces

  ghost predicate Settled(scope: Scope) {
    scope.state.Failed? || scope.state.Closed?
  }

  /** A reservation whose owner is gone, or a scope that was failed: no evidence can follow. */
  ghost predicate Lost(s: Broker, role: Role)
    requires HasScope(s.docs, role)
  {
    || ScopeOf(s.docs, role).state.Failed?
    || (ScopeOf(s.docs, role).state.Calling?
        && forall w :: w in s.callers && Owner(s.callers[w]) ==> s.callers[w].request.role != role)
  }

  ghost predicate ScopeLater(s: Broker, t: Broker, role: Role) {
    && HasScope(s.docs, role) && HasScope(t.docs, role)
    && (Settled(ScopeOf(s.docs, role)) ==> t.docs.docs[ScopeId(role)] == s.docs.docs[ScopeId(role)])
    && ScopeOf(s.docs, role).receipts <= ScopeOf(t.docs, role).receipts
    && ScopeOf(s.docs, role).calls <= ScopeOf(t.docs, role).calls
    && (Lost(s, role) ==> Lost(t, role) && ScopeOf(t.docs, role).receipts == ScopeOf(s.docs, role).receipts)
  }

  ghost predicate Later(s: Broker, t: Broker) {
    && t.binding == s.binding && t.handles == s.handles
    && s.finished <= t.finished
    && (forall r :: InPack(s.binding, r) ==> ScopeLater(s, t, r))
    && (forall id :: HasReceipt(s.docs, id) ==> HasReceipt(t.docs, id) && ReceiptOf(t.docs, id) == ReceiptOf(s.docs, id))
  }

  /** A step that stores nothing: at most, an owner goes away. */
  lemma QuietIsLater(s: Broker, w: nat, p: Position)
    requires Inv(s)
    requires Owner(p) ==> Owner(At(s, w)) && At(s, w).request.role == p.request.role
    ensures Later(s, Goto(s, w, p))
  {
    hide Scopes, ReceiptsOk, OneOwner, Ends, PositionOk;
  }

  lemma RewriteIsLater(s: Broker, w: nat, next: Scope, tag: nat, done: Position)
    requires Inv(s) && InPack(s.binding, next.role) && Admits(s.docs, Rewrite(next, tag))
    requires Forward(ScopeOf(s.docs, next.role), next) && ScopeOf(s.docs, next.role).calls <= next.calls
    requires Owner(done) ==> done.request.role == next.role && next.state.Calling?
    ensures Later(s, Goto(s.(docs := Batch(s.docs, Rewrite(next, tag))), w, done))
  {
    hide Batch, Admits, Rewrite, Inv, Later;
    FiledBroker(s);
    RewriteEffect(s, next, tag);
    ForwardIsLater(s, s.(docs := Batch(s.docs, Rewrite(next, tag))), w, next, done);
  }

  lemma FiledBroker(s: Broker)
    requires Inv(s)
    ensures Filed(s)
  {
  }

  lemma ForwardIsLater(s: Broker, u: Broker, w: nat, next: Scope, done: Position)
    requires Filed(s) && InPack(s.binding, next.role) && RewroteOne(s, u, next)
    requires Forward(ScopeOf(s.docs, next.role), next) && ScopeOf(s.docs, next.role).calls <= next.calls
    requires Owner(done) ==> done.request.role == next.role && next.state.Calling?
    ensures Later(s, Goto(u, w, done))
  {
    hide Counted;
  }

  lemma ReserveIsLater(s: Broker, w: nat, p: Position, acked: bool)
    requires Inv(s) && w in s.callers && s.callers[w] == p && p.Reserving?
    ensures Later(s, NextReserve(s, w, p, acked))
  {
    hide Inv;
    Positioned(s, w);
    var next := p.snap.(state := Calling, calls := p.snap.calls + 1);
    if Admits(s.docs, Rewrite(next, p.tag)) {
      AdmittedIsCurrent(s, p.request.role, p.snap, next, p.tag);
      hide Later;
      RewriteIsLater(s, w, next, p.tag, if acked then Reserved(p.request) else FailLoading(p.request.role, FAIL_ATTEMPTS, None, false));
    } else {
      QuietIsLater(s, w, FailLoading(p.request.role, FAIL_ATTEMPTS, None, false));
    }
  }

  lemma FailStoreIsLater(s: Broker, w: nat, p: Position, acked: bool)
    requires Inv(s) && w in s.callers && s.callers[w] == p && p.FailStoring?
    ensures Later(s, NextFailStore(s, w, p, acked))
  {
    hide Inv;
    Positioned(s, w);
    var next := p.snap.(state := Failed);
    if Admits(s.docs, Rewrite(next, p.tag)) {
      FailingIsCurrent(s, p);
      AdmittedIsCurrent(s, p.role, p.snap, next, p.tag);
      hide Later;
      RewriteIsLater(s, w, next, p.tag,
        if acked && p.revoking && p.next.Some? then Revoking(p.next.value, None) else Answered(None));
    } else {
      QuietIsLater(s, w, FailLoading(p.role, p.tries - if p.tries > 0 then 1 else 0, p.next, p.revoking));
    }
  }

  lemma FailingIsCurrent(s: Broker, p: Position)
    requires Inv(s) && PositionOk(s, p) && p.FailStoring?
    ensures InPack(s.binding, p.role)
  {
  }

  lemma StoreIsLater(s: Broker, w: nat, p: Position, acked: bool)
    requires Inv(s) && w in s.callers && s.callers[w] == p && p.Storing?
    ensures Later(s, NextStore(s, w, p, acked))
  {
    hide Inv, Batch, Admits, ReceiptWrites, Later;
    if Admits(s.docs, ReceiptWrites(p.held, p.tag, p.receipt)) {
      StoringFacts(s, w);
      StoreEffect(s, p.held, p.tag, p.receipt);
      StoringCurrent(s, w);
      FiledIsLater(s, w, p, NextStore(s, w, p, acked));
    } else {
      QuietIsLater(s, w, FailLoading(p.request.role, FAIL_ATTEMPTS, None, false));
    }
  }

  lemma FiledIsLater(s: Broker, w: nat, p: Position, t: Broker)
    requires Inv(s) && w in s.callers && s.callers[w] == p && p.Storing? && p.held.role == p.request.role
    requires Rewritten(s, t.(callers := s.callers)) && t.finished == s.finished && t.callers == s.callers[w := At(t, w)] && !Owner(At(t, w))
    requires HasScope(t.docs, p.held.role) && ScopeOf(t.docs, p.held.role) == p.held.(state := Open, receipts := p.held.receipts + [p.receipt.id])
    requires HasScope(s.docs, p.held.role) && ScopeOf(s.docs, p.held.role) == p.held
    requires forall r :: r != p.held.role && HasScope(s.docs, r) ==> t.docs.docs[ScopeId(r)] == s.docs.docs[ScopeId(r)]
    ensures Later(s, t)
  {
    HeldIsCalling(s, w);
    hide Inv;
    InPackHasScope(s);
    assert !Lost(s, p.request.role);
  }

  lemma InPackHasScope(s: Broker)
    requires Inv(s)
    ensures forall r :: InPack(s.binding, r) ==> HasScope(s.docs, r)
  {
  }

  lemma HeldIsCalling(s: Broker, w: nat)
    requires Inv(s) && w in s.callers && s.callers[w].Storing?
    ensures s.callers[w].held.state.Calling?
  {
    assert PositionOk(s, s.callers[w]);
  }

  lemma ClosedIsLater(s: Broker, t: Broker)
    requires Rewritten(s, t) && s.finished <= t.finished
    requires forall r :: InPack(s.binding, r) ==>
      && HasScope(s.docs, r) && ScopeOf(s.docs, r).state.Open?
      && HasScope(t.docs, r) && ScopeOf(t.docs, r) == ScopeOf(s.docs, r).(state := Closed)
    ensures Later(s, t)
  {
  }

  lemma CloseIsLater(s: Broker, w: nat, p: Position, acked: bool)
    requires Inv(s) && w in s.callers && s.callers[w] == p && p.Closing?
    ensures Later(s, NextClose(s, w, p, acked))
  {
    hide Inv, Batch, Admits, CloseWrites, Later, Rewritten, RoleRead;
    if Admits(s.docs, CloseWrites(p.first, p.firstTag, p.second, p.secondTag)) {
      ClosingRoles(s, w);
      var a, b := ClosingReads(s, w);
      RoleReadFacts(s, FirstRole(s.binding.pack), p.first, p.firstTag, a);
      RoleReadFacts(s, SecondRole(s.binding.pack), p.second, p.secondTag, b);
      CloseEffect(s, p.first, p.firstTag, p.second, p.secondTag);
      ClosingCurrent(s, w);
      var t := NextClose(s, w, p, acked);
      SameDocsRewritten(s, s.(docs := t.docs), t);
      ClosedIsLater(s, t);
    } else {
      QuietIsLater(s, w, Idle);
    }
  }

  lemma SameDocsRewritten(s: Broker, t: Broker, u: Broker)
    requires Rewritten(s, t) && u.docs == t.docs && u.binding == t.binding && u.handles == t.handles
    ensures Rewritten(s, u)
  {
  }

  predicate Writes(a: Act) {
    a.CallReserve? || a.CallStore? || a.FailStore? || a.FinishStore?
  }

  lemma NextIsLater(s: Broker, step: Step)
    requires Inv(s)
    ensures Later(s, Next(s, step))
  {
    hide Inv, Later, Next;
    if step.act.CallReserve? {
      ReserveStepIsLater(s, step);
    } else if step.act.CallStore? {
      StoreStepIsLater(s, step);
    } else if step.act.FailStore? {
      FailStepIsLater(s, step);
    } else if step.act.FinishStore? {
      CloseStepIsLater(s, step);
    } else {
      MoveIsLater(s, step);
    }
  }

  lemma ReserveStepIsLater(s: Broker, step: Step)
    requires Inv(s) && step.act.CallReserve?
    ensures Later(s, Next(s, step))
  {
    hide Inv, Later, NextReserve;
    LaterReflexive(s);
    if At(s, step.caller).Reserving? { ReserveIsLater(s, step.caller, At(s, step.caller), step.act.acked); }
  }

  lemma StoreStepIsLater(s: Broker, step: Step)
    requires Inv(s) && step.act.CallStore?
    ensures Later(s, Next(s, step))
  {
    hide Inv, Later, NextStore;
    LaterReflexive(s);
    if At(s, step.caller).Storing? { StoreIsLater(s, step.caller, At(s, step.caller), step.act.acked); }
  }

  lemma FailStepIsLater(s: Broker, step: Step)
    requires Inv(s) && step.act.FailStore?
    ensures Later(s, Next(s, step))
  {
    hide Inv, Later, NextFailStore;
    LaterReflexive(s);
    if At(s, step.caller).FailStoring? { FailStoreIsLater(s, step.caller, At(s, step.caller), step.act.acked); }
  }

  lemma CloseStepIsLater(s: Broker, step: Step)
    requires Inv(s) && step.act.FinishStore?
    ensures Later(s, Next(s, step))
  {
    hide Inv, Later, NextClose;
    LaterReflexive(s);
    if At(s, step.caller).Closing? { CloseIsLater(s, step.caller, At(s, step.caller), step.act.acked); }
  }

  lemma MoveIsLater(s: Broker, step: Step)
    requires Inv(s)
    requires !Writes(step.act)
    ensures Later(s, Next(s, step))
  {
    hide Inv, Later, Next;
    LaterReflexive(s);
    QuietSteps(s, step);
    QuietIsLater(s, step.caller, At(Next(s, step), step.caller));
  }

  /** Every other step only moves its caller, and gives no one a scope it did not hold. */
  lemma QuietSteps(s: Broker, step: Step)
    requires !Writes(step.act)
    ensures Quietly(s, Next(s, step), step.caller)
  {
    hide Next;
    if step.act.CallLoad? || step.act.CallConfirm? || step.act.CallRead? {
      QuietCalls(s, step);
    } else {
      QuietOthers(s, step);
    }
  }

  predicate Quietly(s: Broker, t: Broker, w: nat) {
    && (t == s || t == Goto(s, w, At(t, w)))
    && (Owner(At(t, w)) ==> Owner(At(s, w)) && At(s, w).request.role == At(t, w).request.role)
  }

  lemma QuietCalls(s: Broker, step: Step)
    requires step.act.CallLoad? || step.act.CallConfirm? || step.act.CallRead?
    ensures Quietly(s, Next(s, step), step.caller)
  {
    hide ArgumentsFit, Allowed;
  }

  lemma QuietOthers(s: Broker, step: Step)
    requires !Writes(step.act) && !step.act.CallLoad? && !step.act.CallConfirm? && !step.act.CallRead?
    ensures Quietly(s, Next(s, step), step.caller)
  {
    hide ReadRole;
  }

  lemma LaterReflexive(s: Broker)
    requires Inv(s)
    ensures Later(s, s)
  {
  }

  lemma LaterComposes(s: Broker, t: Broker, u: Broker)
    requires Later(s, t) && Later(t, u)
    ensures Later(s, u)
  {
    forall r | InPack(s.binding, r) ensures ScopeLater(s, u, r) {
      assert ScopeLater(s, t, r) && ScopeLater(t, u, r);
    }
  }

  lemma {:induction false} HistoryOnlyGrows(s: Broker, steps: seq<Step>)
    requires Inv(s)
    ensures Inv(Run(Next, s, steps)) && Later(s, Run(Next, s, steps))
  {
    if steps == [] {
      LaterReflexive(s);
    } else {
      var t := Run(Next, s, steps[..|steps| - 1]);
      HistoryOnlyGrows(s, steps[..|steps| - 1]);
      NextKeepsInv(t, steps[|steps| - 1]);
      NextIsLater(t, steps[|steps| - 1]);
      LaterComposes(s, t, Next(t, steps[|steps| - 1]));
    }
  }

  // ---------------------------------------------------------------- the results

  /** A failed or closed scope is never written again. */
  lemma SettledScopesStay(binding: Binding, h1: nat, h2: nat, first: seq<Step>, second: seq<Step>, role: Role)
    requires var s := Run(Next, Issue(binding, h1, h2), first); HasScope(s.docs, role) && Settled(ScopeOf(s.docs, role))
    ensures var s, t := Run(Next, Issue(binding, h1, h2), first), Run(Next, Issue(binding, h1, h2), first + second);
      HasScope(t.docs, role) && t.docs.docs[ScopeId(role)] == s.docs.docs[ScopeId(role)]
      && forall id :: HasReceipt(t.docs, id) && ReceiptOf(t.docs, id).role == role ==> HasReceipt(s.docs, id)
  {
    var s := Run(Next, Issue(binding, h1, h2), first);
    RunsAreSafe(binding, h1, h2, first);
    RunAppend(Next, Issue(binding, h1, h2), first, second);
    HistoryOnlyGrows(s, second);
    var t := Run(Next, s, second);
    assert ScopeLater(s, t, role);
    assert ScopeOk(s, role);
  }

  /** A reservation whose owner is gone is never completed: the scope does not reopen and gets
      no receipt. */
  lemma LostReservationStaysLost(binding: Binding, h1: nat, h2: nat, first: seq<Step>, second: seq<Step>, role: Role)
    requires var s := Run(Next, Issue(binding, h1, h2), first); HasScope(s.docs, role) && Lost(s, role)
    ensures var s, t := Run(Next, Issue(binding, h1, h2), first), Run(Next, Issue(binding, h1, h2), first + second);
      HasScope(t.docs, role) && !ScopeOf(t.docs, role).state.Open? && !ScopeOf(t.docs, role).state.Closed?
      && ScopeOf(t.docs, role).receipts == ScopeOf(s.docs, role).receipts
  {
    var s := Run(Next, Issue(binding, h1, h2), first);
    RunsAreSafe(binding, h1, h2, first);
    RunAppend(Next, Issue(binding, h1, h2), first, second);
    HistoryOnlyGrows(s, second);
    assert ScopeLater(s, Run(Next, s, second), role);
  }

  /** What a reader of the durable scopes may rely on at any moment. */
  lemma CallsMatchReceipts(binding: Binding, h1: nat, h2: nat, steps: seq<Step>, role: Role)
    requires InPack(binding, role)
    ensures var t := Run(Next, Issue(binding, h1, h2), steps);
      && HasScope(t.docs, role)
      && var scope := ScopeOf(t.docs, role);
      && (scope.state.Open? ==> scope.calls == |scope.receipts| <= CALL_BUDGET)
      && (scope.state.Calling? ==> scope.calls == |scope.receipts| + 1 <= CALL_BUDGET)
      && OneOwner(t)
      && (forall other :: InPack(binding, other) && HasScope(t.docs, other) ==>
            (ScopeOf(t.docs, other).state.Closed? <==> scope.state.Closed?))
  {
    hide Next, Run, Issue, ReceiptsOk, PositionOk, CompleteRole, ScopeLater;
    RunsAreSafe(binding, h1, h2, steps);
    var t := Run(Next, Issue(binding, h1, h2), steps);
    IssueOk(binding, h1, h2);
    IssueBinds(binding, h1, h2);
    HistoryOnlyGrows(Issue(binding, h1, h2), steps);
    assert ScopeOk(t, role);
  }

  lemma IssueBinds(binding: Binding, h1: nat, h2: nat)
    ensures Issue(binding, h1, h2).binding == binding
    ensures Issue(binding, h1, h2).handles == map[FirstRole(binding.pack) := h1, SecondRole(binding.pack) := h2]
  {
  }

  /** Every durable receipt is filed in the scope of its role, and is by a tool of that role on
      the bound source and documents, read before the investigation expired. */
  lemma ReceiptsAreEvidence(binding: Binding, h1: nat, h2: nat, steps: seq<Step>, id: nat)
    requires HasReceipt(Run(Next, Issue(binding, h1, h2), steps).docs, id)
    ensures var t := Run(Next, Issue(binding, h1, h2), steps); var r := ReceiptOf(t.docs, id);
      && r.id == id && (r.role == FirstRole(binding.pack) || r.role == SecondRole(binding.pack))
      && HasScope(t.docs, r.role) && id in ScopeOf(t.docs, r.role).receipts
      && r.tool in Allowed(r.role) && r.source == binding.source && r.completedAt < binding.expiresAt
      && (r.args.DocumentId? ==> r.args.document in binding.documents)
  {
    hide Next, Run, Issue, Scopes, OneOwner, Ends, PositionOk, ScopeLater, Allowed;
    IssueOk(binding, h1, h2);
    IssueBinds(binding, h1, h2);
    HistoryOnlyGrows(Issue(binding, h1, h2), steps);
    assert Genuine(binding, ReceiptOf(Run(Next, Issue(binding, h1, h2), steps).docs, id));
  }

  /** Whoever does not name the bound tenant, the bound principal and the handle of a role of the
      pack is answered without a receipt, and touches nothing. Whoever does comes to a reservation
      exactly while the scope is open, in time and within its budget, for a fitting request; on
      anything else the scope is failed. */
  lemma OnlyTheHolderIsServed(
      binding: Binding, h1: nat, h2: nat, steps: seq<Step>, w: nat, tenant: nat, principal: nat, handle: nat, request: Request, now: int)
    requires At(Run(Next, Issue(binding, h1, h2), steps), w).Idle?
    ensures var s := Run(Next, Issue(binding, h1, h2), steps); var t := Next(s, Step(w, CallLoad(tenant, principal, handle, request, now)));
      var role := request.role;
      var first, second := role == FirstRole(binding.pack) && handle == h1, role == SecondRole(binding.pack) && handle == h2;
      var known := tenant == binding.tenant && principal == binding.principal && (first || second);
      && t.docs == s.docs && t.finished == s.finished
      && (At(t, w) == Answered(None) <==> !known)
      && (known && !At(t, w).Reserving? ==> At(t, w) == FailLoading(role, FAIL_ATTEMPTS, None, false))
      && (known ==> HasScope(s.docs, role))
      && (known ==>
            (At(t, w).Reserving? <==>
               && ScopeOf(s.docs, role).state.Open? && |ScopeOf(s.docs, role).receipts| < 6 && now < binding.expiresAt
               && request.tool in Allowed(role) && ArgumentsFit(request.tool, request.args, binding.documents)))
  {
    hide Run, Issue, OneOwner, Ends, PositionOk, ScopeLater, Allowed, ArgumentsFit, Distinct;
    IssueOk(binding, h1, h2);
    IssueBinds(binding, h1, h2);
    HistoryOnlyGrows(Issue(binding, h1, h2), steps);
    var s := Run(Next, Issue(binding, h1, h2), steps);
    assert InPack(binding, request.role) ==> ScopeOk(s, request.role);
    assert Next(s, Step(w, CallLoad(tenant, principal, handle, request, now))) == NextCall(s, w, tenant, principal, handle, request, now);
  }

  /** A finished investigation returns, once, exactly the durable receipts of both roles in
      order: genuine, by every allowed tool, over exactly the bound documents. */
  lemma FinishedIsComplete(binding: Binding, h1: nat, h2: nat, steps: seq<Step>)
    requires Run(Next, Issue(binding, h1, h2), steps).finished != []
    ensures var t := Run(Next, Issue(binding, h1, h2), steps);
      var r1, r2 := FirstRole(binding.pack), SecondRole(binding.pack);
      && |t.finished| == 1 && t.binding == binding
      && HasScope(t.docs, r1) && HasScope(t.docs, r2)
      && AllHeld(t.docs, ScopeOf(t.docs, r1).receipts) && AllHeld(t.docs, ScopeOf(t.docs, r2).receipts)
      && var a, b := ReadReceipts(t.docs, ScopeOf(t.docs, r1).receipts), ReadReceipts(t.docs, ScopeOf(t.docs, r2).receipts);
      && t.finished[0] == a + b
      && CompleteRole(binding, r1, a) && CompleteRole(binding, r2, b)
      && |a| <= CALL_BUDGET && |b| <= CALL_BUDGET
      && (forall r :: r in a + b ==> Genuine(binding, r))
  {
    hide Next, Run, Issue, PositionOk, CompleteRole, ScopeLater, Genuine;
    IssueOk(binding, h1, h2);
    IssueBinds(binding, h1, h2);
    HistoryOnlyGrows(Issue(binding, h1, h2), steps);
    var t := Run(Next, Issue(binding, h1, h2), steps);
    var r1, r2 := FirstRole(binding.pack), SecondRole(binding.pack);
    assert ScopeOk(t, r1) && ScopeOk(t, r2);
    var a, b := ReadReceipts(t.docs, ScopeOf(t.docs, r1).receipts), ReadReceipts(t.docs, ScopeOf(t.docs, r2).receipts);
    forall r | r in a + b ensures Genuine(binding, r) {
      if r in a {
        var i :| 0 <= i < |a| && a[i] == r;
        assert HasReceipt(t.docs, ScopeOf(t.docs, r1).receipts[i]);
      } else {
        var i :| 0 <= i < |b| && b[i] == r;
        assert HasReceipt(t.docs, ScopeOf(t.docs, r2).receipts[i]);
      }
    }
  }

  // ---------------------------------------------------------------- the budget

  function Analyses(found: seq<Receipt>, analyzer: Tool): nat {
    if found == [] then 0
    else Analyses(found[..|found| - 1], analyzer) + if found[|found| - 1].tool == analyzer then 1 else 0
  }

  /** Each analysis covers at most one document. */
  lemma {:induction false} AnalysesCoverDocuments(found: seq<Receipt>, analyzer: Tool)
    ensures |Analyzed(found, analyzer)| <= Analyses(found, analyzer)
  {
    if found == [] {
      assert Analyzed(found, analyzer) == {};
    } else {
      var init, last := found[..|found| - 1], found[|found| - 1];
      AnalysesCoverDocuments(init, analyzer);
      assert found == init + [last];
      if last.tool == analyzer && last.args.DocumentId? {
        assert Analyzed(found, analyzer) == Analyzed(init, analyzer) + {last.args.document};
      } else {
        assert Analyzed(found, analyzer) == Analyzed(init, analyzer);
      }
    }
  }

  lemma OneMore<T>(s: set<T>, x: T)
    ensures |s + {x}| <= |s| + 1
  {
    if x in s {
      assert s + {x} == s;
    }
  }

  lemma ToolsOfLonger(init: seq<Receipt>, last: Receipt, analyzer: Tool)
    ensures ToolsOf(init + [last]) - {analyzer}
         == if last.tool == analyzer then ToolsOf(init) - {analyzer} else (ToolsOf(init) - {analyzer}) + {last.tool}
  {
    var found := init + [last];
    assert found[|init|] == last;
    assert ToolsOf(found) == ToolsOf(init) + {last.tool};
  }

  /** Every other tool that was used took a receipt of its own. */
  lemma {:induction false} OtherToolsTakeReceipts(found: seq<Receipt>, analyzer: Tool)
    ensures |ToolsOf(found) - {analyzer}| + Analyses(found, analyzer) <= |found|
  {
    if found == [] {
      assert ToolsOf(found) - {analyzer} == {};
    } else {
      hide ToolsOf;
      var init, last := found[..|found| - 1], found[|found| - 1];
      OtherToolsTakeReceipts(init, analyzer);
      assert found == init + [last];
      ToolsOfLonger(init, last, analyzer);
      OneMore(ToolsOf(init) - {analyzer}, last.tool);
    }
  }

  lemma RoleBoundsDocuments(binding: Binding, role: Role, found: seq<Receipt>)
    requires CompleteRole(binding, role, found) && MandatoryAnalyzer(role).Some? && |found| <= CALL_BUDGET
    ensures |binding.documents| + |Allowed(role) - {MandatoryAnalyzer(role).value}| <= CALL_BUDGET
  {
    AnalysesCoverDocuments(found, MandatoryAnalyzer(role).value);
    OtherToolsTakeReceipts(found, MandatoryAnalyzer(role).value);
  }

  lemma ToolsBesidesAnalysis()
    ensures |Allowed(DocumentAnalyst) - {AnalyzeDocument}| == 1
    ensures |Allowed(CoverageBilling) - {AnalyzeServiceCoverageDocument}| == 3
  {
    assert Allowed(DocumentAnalyst) - {AnalyzeDocument} == {ListEquipmentDocuments};
    assert Allowed(CoverageBilling) - {AnalyzeServiceCoverageDocument}
        == {ListServiceCoverageDocuments, RetrieveRenewalPolicy, CalculateRenewalQuote};
  }

  /** Six calls per role leave room for at most five documents in a certificate investigation
      and three in a coverage renewal: with more, no run ever finishes. */
  lemma BudgetBoundsDocuments(binding: Binding, h1: nat, h2: nat, steps: seq<Step>)
    requires Run(Next, Issue(binding, h1, h2), steps).finished != []
    ensures |binding.documents| <= if binding.pack.CertificateFulfilment? then 5 else 3
  {
    FinishedIsComplete(binding, h1, h2, steps);
    ToolsBesidesAnalysis();
    var t := Run(Next, Issue(binding, h1, h2), steps);
    var r1, r2 := FirstRole(binding.pack), SecondRole(binding.pack);
    var a, b := ReadReceipts(t.docs, ScopeOf(t.docs, r1).receipts), ReadReceipts(t.docs, ScopeOf(t.docs, r2).receipts);
    hide CompleteRole, Genuine, Allowed, ReadReceipts, AllHeld, HasScope, Next, Issue;
    if binding.pack.CertificateFulfilment? {
      RoleBoundsDocuments(binding, r1, a);
    } else {
      RoleBoundsDocuments(binding, r2, b);
    }
  }
}
