/** What every run of the evidence broker keeps. */
module EvidenceSafety {
  import opened Results
  import opened DocumentStore
  import opened EvidenceBroker
  import opened Traces

  // ---------------------------------------------------------------- the invariant

  predicate InPack(binding: Binding, role: Role) {
    role == FirstRole(binding.pack) || role == SecondRole(binding.pack)
  }

  /** Exactly the two scopes of the pack, and receipts filed under their own ids. */
  ghost predicate Filed(s: Broker) {
    && Tagged(s.docs)
    && (forall r :: HasScope(s.docs, r) <==> InPack(s.binding, r))
    && (forall r :: ScopeId(r) in s.docs.docs ==> HasScope(s.docs, r))
    && (forall id :: ReceiptId(id) in s.docs.docs ==> HasReceipt(s.docs, id) && ReceiptOf(s.docs, id).id == id)
    && (forall r :: InPack(s.binding, r) ==> r in s.handles)
  }

  /** The calls of a scope against its receipts. */
  ghost predicate Counted(scope: Scope) {
    && |scope.receipts| <= scope.calls <= CALL_BUDGET
    && scope.calls <= |scope.receipts| + 1
    && (scope.state.Open? || scope.state.Closed? ==> scope.calls == |scope.receipts|)
    && (scope.state.Calling? ==> scope.calls == |scope.receipts| + 1)
  }

  /** A receipt is evidence for its role: an allowed tool, fitting arguments, the bound source,
      and read before the investigation expired. */
  ghost predicate Genuine(binding: Binding, r: Receipt) {
    && InPack(binding, r.role)
    && r.tool in Allowed(r.role)
    && r.source == binding.source
    && ArgumentsFit(r.tool, r.args, binding.documents)
    && r.completedAt < binding.expiresAt
  }

  ghost predicate ScopeOk(s: Broker, role: Role)
    requires HasScope(s.docs, role)
  {
    var scope := ScopeOf(s.docs, role);
    && scope.role == role && scope.binding == s.binding
    && (role in s.handles && scope.handle == s.handles[role])
    && Counted(scope)
    && Distinct(scope.receipts)
    && AllHeld(s.docs, scope.receipts)
    && (forall i :: 0 <= i < |scope.receipts| ==> ReceiptOf(s.docs, scope.receipts[i]).role == role)
  }

  ghost predicate ReceiptsOk(s: Broker) {
    forall id :: HasReceipt(s.docs, id) ==>
      var r := ReceiptOf(s.docs, id);
      Genuine(s.binding, r) && HasScope(s.docs, r.role) && id in ScopeOf(s.docs, r.role).receipts
  }

  predicate Owner(p: Position) {
    p.Reserved? || p.Reading? || p.Storing?
  }

  /** A scope as read: it is the stored one as long as the tag is. */
  ghost predicate SnapOk(s: Broker, role: Role, snap: Scope, tag: nat) {
    && HasScope(s.docs, role)
    && snap.role == role && snap.binding == s.binding
    && tag < s.docs.clock
    && (TagOf(s.docs, role) == tag ==> ScopeOf(s.docs, role) == snap)
  }

  ghost predicate RequestOk(s: Broker, request: Request) {
    && InPack(s.binding, request.role)
    && request.tool in Allowed(request.role)
    && ArgumentsFit(request.tool, request.args, s.binding.documents)
  }

  ghost predicate PositionOk(s: Broker, p: Position) {
    match p
    case Reserving(request, snap, tag) =>
      RequestOk(s, request) && SnapOk(s, request.role, snap, tag) && snap.state.Open? && snap.calls < CALL_BUDGET
    case Reserved(request) => RequestOk(s, request) && Held(s, request.role)
    case Reading(request, held, tag) => RequestOk(s, request) && Owns(s, request.role, held, tag)
    case Storing(request, held, tag, receipt) =>
      && RequestOk(s, request) && Owns(s, request.role, held, tag)
      && receipt.role == request.role && Genuine(s.binding, receipt)
    case FailLoading(role, _, _, _) => true
    case FailStoring(role, _, _, _, snap, tag) => SnapOk(s, role, snap, tag) && (snap.state.Open? || snap.state.Calling?)
    case FinishingSecond(_, first, firstTag, found) => RoleRead(s, FirstRole(s.binding.pack), first, firstTag, found)
    case Closing(first, firstTag, second, secondTag, found) =>
      exists a, b :: found == a + b
        && RoleRead(s, FirstRole(s.binding.pack), first, firstTag, a)
        && RoleRead(s, SecondRole(s.binding.pack), second, secondTag, b)
    case _ => true
  }

  /** A reserved scope is still calling, or was failed under its owner. */
  ghost predicate Held(s: Broker, role: Role) {
    HasScope(s.docs, role) && (ScopeOf(s.docs, role).state.Calling? || ScopeOf(s.docs, role).state.Failed?)
  }

  ghost predicate Owns(s: Broker, role: Role, held: Scope, tag: nat) {
    && Held(s, role)
    && SnapOk(s, role, held, tag)
    && held.state.Calling?
    && (ScopeOf(s.docs, role).state.Calling? ==> TagOf(s.docs, role) == tag)
  }

  /** A role read by `finish`: open when it was read, its receipts complete. */
  ghost predicate RoleRead(s: Broker, role: Role, scope: Scope, tag: nat, found: seq<Receipt>) {
    && SnapOk(s, role, scope, tag)
    && scope.state.Open?
    && AllHeld(s.docs, scope.receipts) && found == ReadReceipts(s.docs, scope.receipts)
    && CompleteRole(s.binding, role, found)
  }

  ghost predicate OneOwner(s: Broker) {
    forall w, v :: w in s.callers && v in s.callers && Owner(s.callers[w]) && Owner(s.callers[v]) && w != v
      ==> s.callers[w].request.role != s.callers[v].request.role
  }

  /** Closed together or not at all, and finished at most once, with exactly the two durable
      lists. */
  ghost predicate Ends(s: Broker)
    requires HasScope(s.docs, FirstRole(s.binding.pack)) && HasScope(s.docs, SecondRole(s.binding.pack))
  {
    var first, second := ScopeOf(s.docs, FirstRole(s.binding.pack)), ScopeOf(s.docs, SecondRole(s.binding.pack));
    && (first.state.Closed? <==> second.state.Closed?)
    && |s.finished| <= 1
    && (s.finished != [] ==> first.state.Closed?)
    && (first.state.Closed? ==>
      && AllHeld(s.docs, first.receipts) && AllHeld(s.docs, second.receipts)
      && var a, b := ReadReceipts(s.docs, first.receipts), ReadReceipts(s.docs, second.receipts);
      && CompleteRole(s.binding, FirstRole(s.binding.pack), a)
      && CompleteRole(s.binding, SecondRole(s.binding.pack), b)
      && (s.finished != [] ==> s.finished[0] == a + b))
  }

  ghost predicate Scopes(s: Broker)
    requires Filed(s)
  {
    ScopeOk(s, FirstRole(s.binding.pack)) && ScopeOk(s, SecondRole(s.binding.pack))
  }

  ghost predicate Inv(s: Broker) {
    && Filed(s)
    && Scopes(s)
    && ReceiptsOk(s)
    && OneOwner(s)
    && Ends(s)
    && (forall w :: w in s.callers ==> PositionOk(s, s.callers[w]))
  }

  // ---------------------------------------------------------------- steps that only move a caller

  lemma GotoKeeps(s: Broker, w: nat, p: Position)
    requires Inv(s) && PositionOk(s, p)
    requires Owner(p) ==> Owner(At(s, w)) && At(s, w).request.role == p.request.role
    ensures Inv(Goto(s, w, p))
  {
    var t := Goto(s, w, p);
    forall v | v in t.callers ensures PositionOk(t, t.callers[v]) {
      PositionSame(s, t, if v == w then p else s.callers[v]);
    }
  }

  /** What a position says does not depend on the other callers. */
  lemma PositionSame(s: Broker, t: Broker, p: Position)
    requires PositionOk(s, p) && t.docs == s.docs && t.binding == s.binding
    ensures PositionOk(t, p)
  {
    if p.Closing? {
      var a, b :| p.found == a + b
        && RoleRead(s, FirstRole(s.binding.pack), p.first, p.firstTag, a)
        && RoleRead(s, SecondRole(s.binding.pack), p.second, p.secondTag, b);
      assert RoleRead(t, FirstRole(t.binding.pack), p.first, p.firstTag, a)
          && RoleRead(t, SecondRole(t.binding.pack), p.second, p.secondTag, b);
    }
  }

  lemma AbandonKeeps(s: Broker, w: nat, role: Role)
    requires Inv(s)
    ensures Inv(Abandon(s, w, role))
  {
    GotoKeeps(s, w, FailLoading(role, FAIL_ATTEMPTS, None, false));
  }

  lemma CallKeeps(s: Broker, w: nat, tenant: nat, principal: nat, handle: nat, request: Request, now: int)
    requires Inv(s) && At(s, w).Idle?
    ensures Inv(NextCall(s, w, tenant, principal, handle, request, now))
  {
    GotoKeeps(s, w, Answered(None));
    AbandonKeeps(s, w, request.role);
    if HasScope(s.docs, request.role) {
      var scope := ScopeOf(s.docs, request.role);
      assert ScopeOk(s, request.role);
      if scope.state.Open? && scope.calls < CALL_BUDGET && request.tool in Allowed(request.role)
         && ArgumentsFit(request.tool, request.args, scope.binding.documents) {
        GotoKeeps(s, w, Reserving(request, scope, TagOf(s.docs, request.role)));
      }
    }
  }

  lemma ConfirmKeeps(s: Broker, w: nat, p: Position)
    requires Inv(s) && w in s.callers && s.callers[w] == p && p.Reserved?
    ensures Inv(NextConfirm(s, w, p))
  {
    assert PositionOk(s, p);
    assert ScopeOk(s, p.request.role);
    AbandonKeeps(s, w, p.request.role);
    if ScopeOf(s.docs, p.request.role).state.Calling? {
      GotoKeeps(s, w, Reading(p.request, ScopeOf(s.docs, p.request.role), TagOf(s.docs, p.request.role)));
    }
  }

  lemma ReadKeeps(s: Broker, w: nat, p: Position, payload: Option<nat>, now: int, id: nat)
    requires Inv(s) && w in s.callers && s.callers[w] == p && p.Reading?
    ensures Inv(NextRead(s, w, p, payload, now, id))
  {
    assert PositionOk(s, p);
    AbandonKeeps(s, w, p.request.role);
    if payload.Some? && now < p.held.binding.expiresAt {
      GotoKeeps(s, w, Storing(p.request, p.held, p.tag,
        Receipt(id, p.request.role, p.request.tool, p.request.args, p.held.binding.source, payload.value, now)));
    }
  }

  // ---------------------------------------------------------------- steps that rewrite a scope

  /** `t` is `s` with some scopes rewritten and perhaps new receipts: receipts stay, and a scope
      keeps its tag only if it was not touched. */
  ghost predicate Rewritten(s: Broker, t: Broker) {
    && t.binding == s.binding && t.handles == s.handles
    && s.docs.clock < t.docs.clock
    && (forall r :: HasScope(s.docs, r) ==> HasScope(t.docs, r))
    && (forall r :: HasScope(s.docs, r) ==> t.docs.docs[ScopeId(r)] == s.docs.docs[ScopeId(r)] || TagOf(t.docs, r) == s.docs.clock)
    && (forall id :: HasReceipt(s.docs, id) ==> HasReceipt(t.docs, id) && ReceiptOf(t.docs, id) == ReceiptOf(s.docs, id))
  }

  lemma SnapStays(s: Broker, t: Broker, role: Role, snap: Scope, tag: nat)
    requires Rewritten(s, t) && SnapOk(s, role, snap, tag)
    ensures SnapOk(t, role, snap, tag)
  {
  }

  lemma ReceiptsStay(s: Broker, t: Broker, ids: seq<nat>)
    requires Rewritten(s, t) && AllHeld(s.docs, ids)
    ensures AllHeld(t.docs, ids) && ReadReceipts(t.docs, ids) == ReadReceipts(s.docs, ids)
  {
    assert forall i :: 0 <= i < |ids| ==> HasReceipt(s.docs, ids[i]);
  }

  lemma RoleReadStays(s: Broker, t: Broker, role: Role, scope: Scope, tag: nat, found: seq<Receipt>)
    requires Rewritten(s, t) && RoleRead(s, role, scope, tag, found)
    ensures RoleRead(t, role, scope, tag, found)
  {
    SnapStays(s, t, role, scope, tag);
    ReceiptsStay(s, t, scope.receipts);
  }

  /** A position that owns nothing survives any rewriting. */
  lemma PositionStays(s: Broker, t: Broker, p: Position)
    requires Rewritten(s, t) && PositionOk(s, p) && !Owner(p)
    ensures PositionOk(t, p)
  {
    match p
    case Reserving(request, snap, tag) => SnapStays(s, t, request.role, snap, tag);
    case FailStoring(role, _, _, _, snap, tag) => SnapStays(s, t, role, snap, tag);
    case FinishingSecond(_, first, firstTag, found) => RoleReadStays(s, t, FirstRole(s.binding.pack), first, firstTag, found);
    case Closing(first, firstTag, second, secondTag, found) =>
      var a, b :| found == a + b
        && RoleRead(s, FirstRole(s.binding.pack), first, firstTag, a)
        && RoleRead(s, SecondRole(s.binding.pack), second, secondTag, b);
      RoleReadStays(s, t, FirstRole(s.binding.pack), first, firstTag, a);
      RoleReadStays(s, t, SecondRole(s.binding.pack), second, secondTag, b);
    case _ =>
  }

  /** An owner of another role, or of a role that is now failed, survives too. */
  lemma OwnerStays(s: Broker, t: Broker, p: Position)
    requires Rewritten(s, t) && PositionOk(s, p) && Owner(p)
    requires t.docs.docs[ScopeId(p.request.role)] == s.docs.docs[ScopeId(p.request.role)]
          || ScopeOf(t.docs, p.request.role).state.Failed?
    ensures PositionOk(t, p)
  {
  }

  /** The scope of one role is rewritten, and nothing else. */
  ghost predicate RewroteOne(s: Broker, t: Broker, next: Scope) {
    && Rewritten(s, t) && Filed(t)
    && HasScope(t.docs, next.role) && ScopeOf(t.docs, next.role) == next
    && (forall r :: r != next.role && HasScope(s.docs, r) ==> t.docs.docs[ScopeId(r)] == s.docs.docs[ScopeId(r)])
    && (forall id :: HasReceipt(t.docs, id) ==> HasReceipt(s.docs, id))
    && t.callers == s.callers && t.finished == s.finished
  }

  lemma RewriteEffect(s: Broker, next: Scope, tag: nat)
    requires Filed(s) && InPack(s.binding, next.role) && Admits(s.docs, Rewrite(next, tag))
    ensures RewroteOne(s, s.(docs := Batch(s.docs, Rewrite(next, tag))), next)
  {
    var t := s.(docs := Batch(s.docs, Rewrite(next, tag)));
    BatchKeepsTags(s.docs, Rewrite(next, tag));
    assert ScopeId(next.role) in Rewrite(next, tag);
    assert forall r :: r != next.role ==> ScopeId(r) !in Rewrite(next, tag);
    assert forall id: nat :: ReceiptId(id) !in Rewrite(next, tag);
    forall r ensures HasScope(t.docs, r) <==> HasScope(s.docs, r) {
    }
  }

  /** A forward move of one scope that keeps its receipts. */
  ghost predicate Forward(scope: Scope, next: Scope) {
    && next.role == scope.role && next.binding == scope.binding && next.handle == scope.handle
    && next.receipts == scope.receipts && Counted(next)
    && ((scope.state.Open? && next.state.Calling?) || ((scope.state.Open? || scope.state.Calling?) && next.state.Failed?))
  }

  lemma ForwardKeepsScopes(s: Broker, t: Broker, next: Scope)
    requires Filed(s) && Scopes(s) && ReceiptsOk(s) && RewroteOne(s, t, next) && InPack(s.binding, next.role)
    requires Forward(ScopeOf(s.docs, next.role), next)
    ensures Scopes(t) && ReceiptsOk(t)
  {
    forall r | InPack(s.binding, r) ensures ScopeOk(t, r) {
      assert ScopeOk(s, r);
      ReceiptsStay(s, t, ScopeOf(s.docs, r).receipts);
    }
  }

  lemma ForwardKeepsEnds(s: Broker, t: Broker, next: Scope)
    requires Filed(s) && Ends(s) && RewroteOne(s, t, next) && InPack(s.binding, next.role)
    requires Forward(ScopeOf(s.docs, next.role), next)
    ensures Ends(t)
  {
  }

  /** Reserving and failing: the state moves forward, the receipts stay. */
  lemma RewriteKeeps(s: Broker, w: nat, next: Scope, tag: nat, done: Position)
    requires Inv(s) && InPack(s.binding, next.role) && Admits(s.docs, Rewrite(next, tag))
    requires Forward(ScopeOf(s.docs, next.role), next)
    requires done.Reserved? || done.FailLoading? || done.Answered? || done.Revoking?
    requires done.Reserved? ==> done.request.role == next.role && RequestOk(s, done.request) && next.state.Calling?
    ensures Inv(Goto(s.(docs := Batch(s.docs, Rewrite(next, tag))), w, done))
  {
    RewriteEffect(s, next, tag);
    var u := s.(docs := Batch(s.docs, Rewrite(next, tag)));
    ForwardKeepsScopes(s, u, next);
    ForwardKeepsEnds(s, u, next);
    MovedKeeps(s, u, w, next, done);
  }

  lemma MovedKeeps(s: Broker, u: Broker, w: nat, next: Scope, done: Position)
    requires Inv(s) && RewroteOne(s, u, next) && InPack(s.binding, next.role)
    requires Forward(ScopeOf(s.docs, next.role), next)
    requires Scopes(u) && ReceiptsOk(u) && Ends(u)
    requires done.Reserved? || done.FailLoading? || done.Answered? || done.Revoking?
    requires done.Reserved? ==> done.request.role == next.role && RequestOk(s, done.request) && next.state.Calling?
    ensures Inv(Goto(u, w, done))
  {
    var t := Goto(u, w, done);
    assert PositionOk(u, done);
    hide PositionOk, Ends, ReceiptsOk, Scopes;
    forall v | v in s.callers && Owner(s.callers[v]) && s.callers[v].request.role == next.role ensures next.state.Failed? {
      OwnerIsCalling(s, v);
    }
    forall v | v in t.callers ensures PositionOk(t, t.callers[v]) {
      if v != w {
        Positioned(s, v);
        if Owner(s.callers[v]) {
          OwnerStays(s, u, s.callers[v]);
        } else {
          PositionStays(s, u, s.callers[v]);
        }
      }
      PositionSame(u, t, t.callers[v]);
    }
    SameScopes(u, t);
  }

  lemma OwnerIsCalling(s: Broker, v: nat)
    requires Inv(s) && v in s.callers && Owner(s.callers[v])
    ensures var role := s.callers[v].request.role;
      HasScope(s.docs, role) && !ScopeOf(s.docs, role).state.Open? && !ScopeOf(s.docs, role).state.Closed?
  {
    assert PositionOk(s, s.callers[v]);
  }

  lemma SameScopes(s: Broker, t: Broker)
    requires Filed(s) && Scopes(s) && ReceiptsOk(s) && Ends(s) && t == s.(callers := t.callers)
    ensures Filed(t) && Scopes(t) && ReceiptsOk(t) && Ends(t)
  {
  }

  lemma Positioned(s: Broker, w: nat)
    requires Inv(s) && w in s.callers
    ensures PositionOk(s, s.callers[w])
  {
  }

  lemma ReserveWins(s: Broker, w: nat, request: Request, snap: Scope, tag: nat, acked: bool)
    requires Inv(s) && RequestOk(s, request) && snap.role == request.role && HasScope(s.docs, snap.role)
    requires ScopeOf(s.docs, snap.role) == snap && snap.state.Open? && Counted(snap) && snap.calls < CALL_BUDGET
    requires Admits(s.docs, Rewrite(snap.(state := Calling, calls := snap.calls + 1), tag))
    ensures var u := s.(docs := Batch(s.docs, Rewrite(snap.(state := Calling, calls := snap.calls + 1), tag)));
      Inv(if acked then Goto(u, w, Reserved(request)) else Abandon(u, w, request.role))
  {
    hide Inv, Admits, Batch;
    RewriteKeeps(s, w, snap.(state := Calling, calls := snap.calls + 1), tag,
      if acked then Reserved(request) else FailLoading(request.role, FAIL_ATTEMPTS, None, false));
  }

  /** A tag that is still admitted is the tag of the scope as it was read. */
  lemma AdmittedIsCurrent(s: Broker, role: Role, snap: Scope, next: Scope, tag: nat)
    requires Inv(s) && InPack(s.binding, role) && SnapOk(s, role, snap, tag) && next.role == role && Admits(s.docs, Rewrite(next, tag))
    ensures ScopeOf(s.docs, role) == snap && Counted(snap)
  {
    assert ScopeId(next.role) in Rewrite(next, tag);
    assert ScopeOk(s, role);
  }

  lemma SnapRole(s: Broker, role: Role, snap: Scope, tag: nat)
    requires SnapOk(s, role, snap, tag)
    ensures snap.role == role
  {
  }

  lemma RequestRole(s: Broker, request: Request)
    requires RequestOk(s, request)
    ensures InPack(s.binding, request.role)
  {
  }

  lemma SnapInPack(s: Broker, role: Role, snap: Scope, tag: nat)
    requires Inv(s) && SnapOk(s, role, snap, tag)
    ensures InPack(s.binding, role)
  {
  }

  lemma ClosingRoles(s: Broker, w: nat)
    requires Inv(s) && w in s.callers && s.callers[w].Closing?
    ensures Filed(s) && s.callers[w].first.role == FirstRole(s.binding.pack) && s.callers[w].second.role == SecondRole(s.binding.pack)
    ensures HasScope(s.docs, s.callers[w].first.role) && HasScope(s.docs, s.callers[w].second.role)
  {
    assert PositionOk(s, s.callers[w]);
  }

  lemma ClosingCurrent(s: Broker, w: nat)
    requires Inv(s) && w in s.callers && s.callers[w].Closing?
    requires HasScope(s.docs, s.callers[w].first.role) && TagOf(s.docs, s.callers[w].first.role) == s.callers[w].firstTag
    requires HasScope(s.docs, s.callers[w].second.role) && TagOf(s.docs, s.callers[w].second.role) == s.callers[w].secondTag
    ensures ScopeOf(s.docs, s.callers[w].first.role) == s.callers[w].first
    ensures ScopeOf(s.docs, s.callers[w].second.role) == s.callers[w].second
  {
    assert PositionOk(s, s.callers[w]);
  }

  lemma StoringFacts(s: Broker, w: nat)
    requires Inv(s) && w in s.callers && s.callers[w].Storing?
    ensures var p := s.callers[w];
      Filed(s) && p.held.role == p.request.role && InPack(s.binding, p.held.role) && p.receipt.role == p.request.role
  {
    assert PositionOk(s, s.callers[w]);
  }

  lemma StoringCurrent(s: Broker, w: nat)
    requires Inv(s) && w in s.callers && s.callers[w].Storing?
    requires HasScope(s.docs, s.callers[w].held.role) && TagOf(s.docs, s.callers[w].held.role) == s.callers[w].tag
    ensures ScopeOf(s.docs, s.callers[w].held.role) == s.callers[w].held
  {
    assert PositionOk(s, s.callers[w]);
  }

  lemma ReserveKeeps(s: Broker, w: nat, p: Position, acked: bool)
    requires Inv(s) && w in s.callers && s.callers[w] == p && p.Reserving?
    ensures Inv(NextReserve(s, w, p, acked))
  {
    hide Inv;
    Positioned(s, w);
    var next := p.snap.(state := Calling, calls := p.snap.calls + 1);
    if Admits(s.docs, Rewrite(next, p.tag)) {
      AdmittedIsCurrent(s, p.request.role, p.snap, next, p.tag);
      ReserveWins(s, w, p.request, p.snap, p.tag, acked);
    } else {
      AbandonKeeps(s, w, p.request.role);
    }
  }

  lemma FailLoadKeeps(s: Broker, w: nat, p: Position)
    requires Inv(s) && p.FailLoading?
    ensures Inv(NextFailLoad(s, w, p))
  {
    GotoKeeps(s, w, Answered(None));
    if p.next.Some? {
      GotoKeeps(s, w, Revoking(p.next.value, None));
    }
    if HasScope(s.docs, p.role) {
      assert ScopeOk(s, p.role);
      var scope := ScopeOf(s.docs, p.role);
      if scope.state.Open? || scope.state.Calling? {
        GotoKeeps(s, w, FailStoring(p.role, p.tries, p.next, p.revoking, scope, TagOf(s.docs, p.role)));
      }
    }
  }

  lemma FailStoreKeeps(s: Broker, w: nat, p: Position, acked: bool)
    requires Inv(s) && w in s.callers && s.callers[w] == p && p.FailStoring?
    ensures Inv(NextFailStore(s, w, p, acked))
  {
    hide Inv, Admits, Batch, Rewrite, SnapOk;
    Positioned(s, w);
    var next := p.snap.(state := Failed);
    if Admits(s.docs, Rewrite(next, p.tag)) {
      SnapRole(s, p.role, p.snap, p.tag);
      SnapInPack(s, p.role, p.snap, p.tag);
      AdmittedIsCurrent(s, p.role, p.snap, next, p.tag);
      RewriteKeeps(s, w, next, p.tag,
        if acked && p.revoking && p.next.Some? then Revoking(p.next.value, None) else Answered(None));
    } else {
      GotoKeeps(s, w, FailLoading(p.role, p.tries - if p.tries > 0 then 1 else 0, p.next, p.revoking));
    }
  }

  lemma AbortKeeps(s: Broker, w: nat, p: Position, binding: Binding)
    requires Inv(s) && At(s, w) == p
    ensures Inv(NextAbort(s, w, p, binding))
  {
    GotoKeeps(s, w, Revoking(FirstRole(s.binding.pack), Some(SecondRole(s.binding.pack))));
    GotoKeeps(s, w, Answered(None));
    if p.Revoking? {
      GotoKeeps(s, w, FailLoading(p.role, FAIL_ATTEMPTS, p.next, true));
    }
  }

  // ---------------------------------------------------------------- the receipt

  /** A stored receipt reopens the scope and is filed under it, and nothing else changes. */
  lemma StoreEffect(s: Broker, held: Scope, tag: nat, receipt: Receipt)
    requires Filed(s) && InPack(s.binding, held.role) && Admits(s.docs, ReceiptWrites(held, tag, receipt))
    ensures var t := s.(docs := Batch(s.docs, ReceiptWrites(held, tag, receipt)));
      && Rewritten(s, t) && Filed(t)
      && ScopeOf(t.docs, held.role) == held.(state := Open, receipts := held.receipts + [receipt.id])
      && (forall r :: r != held.role && HasScope(s.docs, r) ==> t.docs.docs[ScopeId(r)] == s.docs.docs[ScopeId(r)])
      && !HasReceipt(s.docs, receipt.id) && HasReceipt(t.docs, receipt.id) && ReceiptOf(t.docs, receipt.id) == receipt
      && (forall id :: HasReceipt(t.docs, id) ==> HasReceipt(s.docs, id) || id == receipt.id)
      && TagOf(s.docs, held.role) == tag
  {
    var writes := ReceiptWrites(held, tag, receipt);
    var t := s.(docs := Batch(s.docs, writes));
    BatchKeepsTags(s.docs, writes);
    assert ScopeId(held.role) in writes && ReceiptId(receipt.id) in writes;
    assert forall r :: r != held.role ==> ScopeId(r) !in writes;
    assert forall id: nat :: id != receipt.id ==> ReceiptId(id) !in writes;
    forall r ensures HasScope(t.docs, r) <==> HasScope(s.docs, r) {
    }
  }

  /** A receipt filed under its scope, and the other scope as it was. */
  ghost predicate FiledOne(s: Broker, t: Broker, role: Role, receipt: Receipt) {
    && Filed(s) && Filed(t) && Rewritten(s, t) && InPack(s.binding, role)
    && ScopeOf(s.docs, role).state.Calling? && receipt.role == role && Genuine(s.binding, receipt)
    && ScopeOf(t.docs, role) == ScopeOf(s.docs, role).(state := Open, receipts := ScopeOf(s.docs, role).receipts + [receipt.id])
    && (forall r :: r != role && HasScope(s.docs, r) ==> t.docs.docs[ScopeId(r)] == s.docs.docs[ScopeId(r)])
    && !HasReceipt(s.docs, receipt.id) && HasReceipt(t.docs, receipt.id) && ReceiptOf(t.docs, receipt.id) == receipt
    && (forall id :: HasReceipt(t.docs, id) ==> HasReceipt(s.docs, id) || id == receipt.id)
  }

  lemma FiledScopeOk(s: Broker, t: Broker, role: Role, receipt: Receipt)
    requires FiledOne(s, t, role, receipt) && ScopeOk(s, role)
    ensures ScopeOk(t, role)
  {
    ReceiptsStay(s, t, ScopeOf(s.docs, role).receipts);
  }

  lemma OtherScopeOk(s: Broker, t: Broker, role: Role)
    requires Filed(s) && Filed(t) && Rewritten(s, t) && InPack(s.binding, role) && ScopeOk(s, role)
    requires t.docs.docs[ScopeId(role)] == s.docs.docs[ScopeId(role)]
    ensures ScopeOk(t, role)
  {
    ReceiptsStay(s, t, ScopeOf(s.docs, role).receipts);
  }

  lemma StoreKeepsScopes(s: Broker, t: Broker, role: Role, receipt: Receipt)
    requires FiledOne(s, t, role, receipt) && Scopes(s) && ReceiptsOk(s)
    ensures Scopes(t) && ReceiptsOk(t)
  {
    forall r | InPack(s.binding, r) ensures ScopeOk(t, r) {
      if r == role {
        FiledScopeOk(s, t, r, receipt);
      } else {
        OtherScopeOk(s, t, r);
      }
    }
  }

  lemma StoreKeeps(s: Broker, w: nat, p: Position, acked: bool)
    requires Inv(s) && w in s.callers && s.callers[w] == p && p.Storing?
    ensures Inv(NextStore(s, w, p, acked))
  {
    assert PositionOk(s, p);
    var writes := ReceiptWrites(p.held, p.tag, p.receipt);
    if Admits(s.docs, writes) {
      StoreEffect(s, p.held, p.tag, p.receipt);
      var u := s.(docs := Batch(s.docs, writes));
      StoreKeepsScopes(s, u, p.request.role, p.receipt);
      assert Ends(u);
      StoredKeeps(s, u, w, p, if acked then Answered(Some(p.receipt)) else FailLoading(p.request.role, FAIL_ATTEMPTS, None, false));
    } else {
      AbandonKeeps(s, w, p.request.role);
    }
  }

  lemma StoredKeeps(s: Broker, u: Broker, w: nat, p: Position, done: Position)
    requires Inv(s) && w in s.callers && s.callers[w] == p && p.Storing?
    requires Filed(u) && Scopes(u) && ReceiptsOk(u) && Ends(u) && Rewritten(s, u) && u.callers == s.callers
    requires forall r :: r != p.request.role && HasScope(s.docs, r) ==> u.docs.docs[ScopeId(r)] == s.docs.docs[ScopeId(r)]
    requires done.Answered? || done.FailLoading?
    ensures Inv(Goto(u, w, done))
  {
    hide PositionOk, Filed, Ends, ReceiptsOk, Scopes, Rewritten, ScopeOk;
    var t := Goto(u, w, done);
    DoneIsOk(u, done);
    OneOwnerOf(s);
    forall v | v in s.callers && v != w ensures PositionOk(u, s.callers[v]) {
      StoredLeaves(s, u, w, v);
    }
    forall v | v in t.callers ensures PositionOk(t, t.callers[v]) {
      PositionSame(u, t, t.callers[v]);
    }
    SameScopes(u, t);
  }

  lemma OneOwnerOf(s: Broker)
    requires Inv(s)
    ensures OneOwner(s)
  {
  }

  lemma StoredLeaves(s: Broker, u: Broker, w: nat, v: nat)
    requires Inv(s) && w in s.callers && s.callers[w].Storing? && v in s.callers && v != w
    requires Filed(u) && Rewritten(s, u)
    requires forall r :: r != s.callers[w].request.role && HasScope(s.docs, r) ==> u.docs.docs[ScopeId(r)] == s.docs.docs[ScopeId(r)]
    ensures PositionOk(u, s.callers[v])
  {
    Positioned(s, v);
    OneOwnerOf(s);
    hide Inv, PositionOk;
    if Owner(s.callers[v]) {
      assert s.callers[v].request.role != s.callers[w].request.role;
      OwnerStays(s, u, s.callers[v]);
    } else {
      PositionStays(s, u, s.callers[v]);
    }
  }

  // ---------------------------------------------------------------- finish

  lemma ReadRoleOk(s: Broker, role: Role, ids: seq<nat>)
    requires Inv(s) && InPack(s.binding, role)
    ensures ReadRole(s, role, ids).Some? ==>
      var (scope, tag, found) := ReadRole(s, role, ids).value;
      RoleRead(s, role, scope, tag, found) && scope.receipts == ids
  {
    assert ScopeOk(s, role);
  }

  lemma FinishFirstKeeps(s: Broker, w: nat, p: Position)
    requires Inv(s) && p.Finishing?
    ensures Inv(NextFinishFirst(s, w, p))
  {
    hide Inv, RoleRead, ReadRole;
    GotoKeeps(s, w, Idle);
    var role := FirstRole(s.binding.pack);
    if role in p.ids {
      ReadRoleOk(s, role, p.ids[role]);
      if ReadRole(s, role, p.ids[role]).Some? {
        var (scope, tag, found) := ReadRole(s, role, p.ids[role]).value;
        GotoKeeps(s, w, FinishingSecond(p.ids, scope, tag, found));
      }
    }
  }

  lemma ClosingKeeps(s: Broker, w: nat, first: Scope, firstTag: nat, a: seq<Receipt>, second: Scope, secondTag: nat, b: seq<Receipt>)
    requires Inv(s)
    requires RoleRead(s, FirstRole(s.binding.pack), first, firstTag, a) && RoleRead(s, SecondRole(s.binding.pack), second, secondTag, b)
    ensures Inv(Goto(s, w, Closing(first, firstTag, second, secondTag, a + b)))
  {
    hide Inv, RoleRead;
    GotoKeeps(s, w, Closing(first, firstTag, second, secondTag, a + b));
  }

  lemma FinishSecondKeeps(s: Broker, w: nat, p: Position)
    requires Inv(s) && w in s.callers && s.callers[w] == p && p.FinishingSecond?
    ensures Inv(NextFinishSecond(s, w, p))
  {
    hide Inv, RoleRead, ReadRole;
    Positioned(s, w);
    GotoKeeps(s, w, Idle);
    var role := SecondRole(s.binding.pack);
    if role in p.ids {
      ReadRoleOk(s, role, p.ids[role]);
      if ReadRole(s, role, p.ids[role]).Some? {
        var (scope, tag, found) := ReadRole(s, role, p.ids[role]).value;
        ClosingKeeps(s, w, p.first, p.firstTag, p.found, scope, tag, found);
      }
    }
  }

  lemma CloseEffect(s: Broker, first: Scope, firstTag: nat, second: Scope, secondTag: nat)
    requires Filed(s) && first.role == FirstRole(s.binding.pack) && second.role == SecondRole(s.binding.pack)
    requires Admits(s.docs, CloseWrites(first, firstTag, second, secondTag))
    ensures var t := s.(docs := Batch(s.docs, CloseWrites(first, firstTag, second, secondTag)));
      && Rewritten(s, t) && Filed(t)
      && ScopeOf(t.docs, first.role) == first.(state := Closed) && ScopeOf(t.docs, second.role) == second.(state := Closed)
      && TagOf(s.docs, first.role) == firstTag && TagOf(s.docs, second.role) == secondTag
      && (forall id :: HasReceipt(t.docs, id) ==> HasReceipt(s.docs, id))
  {
    var writes := CloseWrites(first, firstTag, second, secondTag);
    var t := s.(docs := Batch(s.docs, writes));
    BatchKeepsTags(s.docs, writes);
    assert ScopeId(first.role) in writes && ScopeId(second.role) in writes;
    assert forall id: nat :: ReceiptId(id) !in writes;
    forall r ensures HasScope(t.docs, r) <==> HasScope(s.docs, r) {
    }
  }

  lemma CloseKeepsScopes(s: Broker, t: Broker)
    requires Filed(s) && Scopes(s) && ReceiptsOk(s) && Filed(t) && Rewritten(s, t)
    requires forall r :: InPack(s.binding, r) ==>
      ScopeOf(s.docs, r).state.Open? && ScopeOf(t.docs, r) == ScopeOf(s.docs, r).(state := Closed)
    requires forall id :: HasReceipt(t.docs, id) ==> HasReceipt(s.docs, id)
    ensures Scopes(t) && ReceiptsOk(t)
  {
    forall r | InPack(s.binding, r) ensures ScopeOk(t, r) {
      assert ScopeOk(s, r);
      ReceiptsStay(s, t, ScopeOf(s.docs, r).receipts);
    }
  }

  lemma FinishedAside(t: Broker, u: Broker)
    requires u == t.(finished := u.finished)
    ensures Filed(t) && Scopes(t) && ReceiptsOk(t) ==> Filed(u) && Scopes(u) && ReceiptsOk(u)
  {
  }

  lemma ClosingReads(s: Broker, w: nat) returns (a: seq<Receipt>, b: seq<Receipt>)
    requires Inv(s) && w in s.callers && s.callers[w].Closing?
    ensures var p := s.callers[w];
      && p.found == a + b
      && RoleRead(s, FirstRole(s.binding.pack), p.first, p.firstTag, a)
      && RoleRead(s, SecondRole(s.binding.pack), p.second, p.secondTag, b)
  {
    var p := s.callers[w];
    assert PositionOk(s, p);
    a, b :| p.found == a + b
      && RoleRead(s, FirstRole(s.binding.pack), p.first, p.firstTag, a)
      && RoleRead(s, SecondRole(s.binding.pack), p.second, p.secondTag, b);
  }

  lemma RoleReadFacts(s: Broker, role: Role, scope: Scope, tag: nat, found: seq<Receipt>)
    requires RoleRead(s, role, scope, tag, found)
    ensures scope.state.Open? && AllHeld(s.docs, scope.receipts) && found == ReadReceipts(s.docs, scope.receipts) && CompleteRole(s.binding, role, found)
  {
  }

  lemma NotFinishedYet(s: Broker)
    requires Inv(s) && HasScope(s.docs, FirstRole(s.binding.pack)) && !ScopeOf(s.docs, FirstRole(s.binding.pack)).state.Closed?
    ensures s.finished == [] && Scopes(s) && ReceiptsOk(s)
  {
  }

  lemma CloseKeeps(s: Broker, w: nat, p: Position, acked: bool)
    requires Inv(s) && w in s.callers && s.callers[w] == p && p.Closing?
    ensures Inv(NextClose(s, w, p, acked))
  {
    hide Inv, RoleRead, Admits, Batch, CloseWrites, SnapOk, CompleteRole, AllHeld, ReadReceipts, Rewritten, Filed, Scopes, ReceiptsOk;
    var writes := CloseWrites(p.first, p.firstTag, p.second, p.secondTag);
    if Admits(s.docs, writes) {
      ClosingRoles(s, w);
      var a, b := ClosingReads(s, w);
      RoleReadFacts(s, FirstRole(s.binding.pack), p.first, p.firstTag, a);
      RoleReadFacts(s, SecondRole(s.binding.pack), p.second, p.secondTag, b);
      CloseEffect(s, p.first, p.firstTag, p.second, p.secondTag);
      ClosingCurrent(s, w);
      NotFinishedYet(s);
      var u := s.(docs := Batch(s.docs, writes), finished := s.finished + if acked then [p.found] else []);
      var u0 := s.(docs := Batch(s.docs, writes));
      CloseKeepsScopes(s, u0);
      ReceiptsStay(s, u0, p.first.receipts);
      ReceiptsStay(s, u0, p.second.receipts);
      FinishedAside(u0, u);
      RewrittenAside(s, u0, u);
      ClosedKeeps(s, u, w, a, b);
    } else {
      GotoKeeps(s, w, Idle);
    }
  }

  lemma RewrittenAside(s: Broker, t: Broker, u: Broker)
    requires Rewritten(s, t) && u == t.(finished := u.finished)
    ensures Rewritten(s, u)
  {
  }

  lemma ClosedKeeps(s: Broker, u: Broker, w: nat, a: seq<Receipt>, b: seq<Receipt>)
    requires Inv(s) && Filed(u) && Scopes(u) && ReceiptsOk(u) && Rewritten(s, u) && u.callers == s.callers
    requires forall r :: InPack(s.binding, r) ==> ScopeOf(s.docs, r).state.Open? && ScopeOf(u.docs, r).state.Closed?
    requires AllHeld(u.docs, ScopeOf(u.docs, FirstRole(u.binding.pack)).receipts) && a == ReadReceipts(u.docs, ScopeOf(u.docs, FirstRole(u.binding.pack)).receipts)
    requires AllHeld(u.docs, ScopeOf(u.docs, SecondRole(u.binding.pack)).receipts) && b == ReadReceipts(u.docs, ScopeOf(u.docs, SecondRole(u.binding.pack)).receipts)
    requires CompleteRole(u.binding, FirstRole(u.binding.pack), a) && CompleteRole(u.binding, SecondRole(u.binding.pack), b)
    requires u.finished == [] || u.finished == [a + b]
    ensures Inv(Goto(u, w, Idle))
  {
    hide Filed, Scopes, ReceiptsOk, PositionOk, CompleteRole, AllHeld, ReadReceipts, Rewritten;
    var t := Goto(u, w, Idle);
    ClosedCallersStay(s, u);
    ClosedEnds(s, u, a, b);
    SameScopes(u, t);
    forall v | v in t.callers ensures PositionOk(t, t.callers[v]) && !Owner(t.callers[v]) {
      if v != w {
        PositionSame(u, t, s.callers[v]);
      } else {
        DoneIsOk(t, Idle);
      }
    }
  }

  lemma ClosedEnds(s: Broker, u: Broker, a: seq<Receipt>, b: seq<Receipt>)
    requires Filed(u) && Rewritten(s, u)
    requires forall r :: InPack(s.binding, r) ==> ScopeOf(u.docs, r).state.Closed?
    requires AllHeld(u.docs, ScopeOf(u.docs, FirstRole(u.binding.pack)).receipts) && a == ReadReceipts(u.docs, ScopeOf(u.docs, FirstRole(u.binding.pack)).receipts)
    requires AllHeld(u.docs, ScopeOf(u.docs, SecondRole(u.binding.pack)).receipts) && b == ReadReceipts(u.docs, ScopeOf(u.docs, SecondRole(u.binding.pack)).receipts)
    requires CompleteRole(u.binding, FirstRole(u.binding.pack), a) && CompleteRole(u.binding, SecondRole(u.binding.pack), b)
    requires u.finished == [] || u.finished == [a + b]
    ensures HasScope(u.docs, FirstRole(u.binding.pack)) && HasScope(u.docs, SecondRole(u.binding.pack)) && Ends(u)
  {
    hide AllHeld, ReadReceipts, CompleteRole;
  }

  lemma DoneIsOk(s: Broker, p: Position)
    requires p.Idle? || p.Answered? || p.FailLoading?
    ensures PositionOk(s, p)
  {
  }

  /** Where no scope is calling any more, no caller owns one. */
  lemma ClosedCallersStay(s: Broker, u: Broker)
    requires Inv(s) && Filed(u) && Rewritten(s, u) && u.callers == s.callers
    requires forall r :: InPack(s.binding, r) ==> ScopeOf(s.docs, r).state.Open? && ScopeOf(u.docs, r).state.Closed?
    ensures forall v :: v in s.callers ==> PositionOk(u, s.callers[v]) && !Owner(s.callers[v])
  {
    forall v | v in s.callers ensures PositionOk(u, s.callers[v]) && !Owner(s.callers[v]) {
      assert PositionOk(s, s.callers[v]);
      PositionStays(s, u, s.callers[v]);
    }
  }

  // ---------------------------------------------------------------- every run

  lemma NextKeepsInv(s: Broker, step: Step)
    requires Inv(s)
    ensures Inv(Next(s, step))
  {
    var w, p := step.caller, At(s, step.caller);
    hide Inv, NextCall, NextReserve, NextConfirm, NextRead, NextStore, NextFailLoad, NextFailStore, NextAbort;
    hide NextFinishFirst, NextFinishSecond, NextClose;
    match step.act
    case CallLoad(tenant, principal, handle, request, now) =>
      if p.Idle? { CallKeeps(s, w, tenant, principal, handle, request, now); }
    case CallReserve(acked) => if p.Reserving? { ReserveKeeps(s, w, p, acked); }
    case CallConfirm => if p.Reserved? { ConfirmKeeps(s, w, p); }
    case CallRead(payload, now, id) => if p.Reading? { ReadKeeps(s, w, p, payload, now, id); }
    case CallStore(acked) => if p.Storing? { StoreKeeps(s, w, p, acked); }
    case FailLoad => if p.FailLoading? { FailLoadKeeps(s, w, p); }
    case FailStore(acked) => if p.FailStoring? { FailStoreKeeps(s, w, p, acked); }
    case AbortLoad(binding) => AbortKeeps(s, w, p, binding);
    case FinishLoad(binding, ids, now) => GotoKeeps(s, w, Finishing(ids, now));
    case FinishFirst => if p.Finishing? { FinishFirstKeeps(s, w, p); }
    case FinishSecond => if p.FinishingSecond? { FinishSecondKeeps(s, w, p); }
    case FinishStore(acked) => if p.Closing? { CloseKeeps(s, w, p, acked); }
    case Return => GotoKeeps(s, w, Idle);
    case Crash => GotoKeeps(s, w, Idle);
  }

  lemma IssueOk(binding: Binding, first: nat, second: nat)
    ensures Inv(Issue(binding, first, second))
  {
    var s := Issue(binding, first, second);
    var a, b := FirstRole(binding.pack), SecondRole(binding.pack);
    var writes: Writes<DocId, Doc> := map[
      ScopeId(a) := Create(ScopeDoc(NewScope(a, binding, first))),
      ScopeId(b) := Create(ScopeDoc(NewScope(b, binding, second)))];
    assert ScopeId(a) in writes && ScopeId(b) in writes;
    assert Admits(Partition(map[], 0), writes);
    assert s.docs == Batch(Partition(map[], 0), writes);
    forall r ensures HasScope(s.docs, r) <==> InPack(binding, r) {
    }
  }

  lemma RunsAreSafe(binding: Binding, first: nat, second: nat, steps: seq<Step>)
    ensures Inv(Run(Next, Issue(binding, first, second), steps))
  {
    IssueOk(binding, first, second);
    forall s: Broker, step: Step | Inv(s) ensures Inv(Next(s, step)) {
      NextKeepsInv(s, step);
    }
    RunKeeps(Next, Inv, Issue(binding, first, second), steps);
  }
}
