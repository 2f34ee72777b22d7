/** For whose cases a dispatcher acts: entries of another authority are neither claimed, sent,
    finished nor recovered, and only claims that have been stale for five minutes are recovered. */
module OutboxRouting {
  import opened Results
  import opened DocumentStore
  import opened Outbox
  import opened OutboxSafety
  import opened Traces

  // ---------------------------------------------------------------- the invariant

  predicate For(a: Authority, c: Case) {
    c.tenant == a.tenant && c.assignee == a.operations
  }

  /** A case on file, of the dispatcher's own authority. */
  predicate Own(s: System, w: nat, request: nat) {
    request in s.cases && For(s.config.authority(w), s.cases[request])
  }

  predicate OnFile(s: System, n: Notification) {
    n.request in s.cases && s.cases[n.request] == n.opsCase
  }

  predicate Listed(s: System, todo: seq<Notification>) {
    forall i :: 0 <= i < |todo| ==> OnFile(s, todo[i])
  }

  /** An entry that was found claimed keeps its attempt and its claim time. */
  ghost predicate FoundClaimed(s: System, n: Notification) {
    && HasBox(s, n.request) && !Box(s, n.request).state.Pending?
    && Box(s, n.request).attempt == n.attempt && Box(s, n.request).claimedAt == n.claimedAt
  }

  ghost predicate Claims(s: System, todo: seq<Notification>) {
    forall i :: 0 <= i < |todo| ==> FoundClaimed(s, todo[i])
  }

  /** The attempt claimed the entry at this time or before. */
  ghost predicate ClaimedBy(s: System, request: nat, attempt: nat, before: int) {
    && HasBox(s, request) && !Box(s, request).state.Pending?
    && (Box(s, request).attempt == Some(attempt) ==> Box(s, request).claimedAt.Some? && Box(s, request).claimedAt.value <= before)
  }

  ghost predicate ThenOk(s: System, w: nat, next: Then) {
    match next
    case AfterRecover(todo, before, now) => Listed(s, todo) && Claims(s, todo) && before + 300 == now
    case AfterDelivery(n, todo) => Listed(s, todo) && OnFile(s, n) && Own(s, w, n.request)
    case AfterAmbiguous(todo) => Listed(s, todo)
  }

  ghost predicate RouteOk(s: System, w: nat, p: Position) {
    match p
    case Idle => true
    case Listing => true
    case Recovering(todo, before, now) => Listed(s, todo) && Claims(s, todo) && before + 300 == now
    case Dispatching(todo) => Listed(s, todo)
    case Claiming(request, todo) => Own(s, w, request) && Listed(s, todo)
    case ClaimStoring(n, _, todo) => OnFile(s, n) && Own(s, w, n.request) && Listed(s, todo)
    case Owning(n, todo) => OnFile(s, n) && Own(s, w, n.request) && Listed(s, todo)
    case Sending(n, todo) => OnFile(s, n) && Own(s, w, n.request) && Listed(s, todo)
    case InFlight(n, todo) => OnFile(s, n) && Own(s, w, n.request) && Listed(s, todo)
    case Finishing(request, attempt, outcome, _, next) =>
      && Own(s, w, request) && ThenOk(s, w, next)
      && (next.AfterRecover? ==> outcome.Ambiguous? && ClaimedBy(s, request, attempt, next.before))
    case FinishStoring(n, _, next) =>
      && OnFile(s, n) && Own(s, w, n.request) && ThenOk(s, w, next)
      && (next.AfterRecover? ==>
            n.state.Ambiguous? && n.claimedAt.Some? && n.updatedAt.Some? && n.claimedAt.value <= next.before && n.updatedAt.value == next.now)
  }

  ghost predicate CallRouted(s: System, c: Call) {
    Own(s, c.caller, c.request) && c.caseId == s.cases[c.request].caseId
  }

  ghost predicate Routed(s: System) {
    && (forall w: nat :: RouteOk(s, w, At(s, w)))
    && (forall i :: 0 <= i < |s.calls| ==> CallRouted(s, s.calls[i]))
  }

  // ---------------------------------------------------------------- what a step keeps

  lemma ListedStays(s: System, t: System, todo: seq<Notification>)
    requires OutboxSafety.Later(s, t)
    ensures Listed(s, todo) ==> Listed(t, todo)
    ensures Claims(s, todo) ==> Claims(t, todo)
  {
    if Claims(s, todo) {
      forall i | 0 <= i < |todo| ensures FoundClaimed(t, todo[i]) {
        assert FoundClaimed(s, todo[i]);
      }
    }
  }

  lemma RouteStays(s: System, t: System, w: nat, p: Position)
    requires OutboxSafety.Later(s, t) && RouteOk(s, w, p)
    ensures RouteOk(t, w, p)
  {
    hide Listed, Claims;
    match p
    case Recovering(todo, _, _) => ListedStays(s, t, todo);
    case Dispatching(todo) => ListedStays(s, t, todo);
    case Claiming(_, todo) => ListedStays(s, t, todo);
    case ClaimStoring(_, _, todo) => ListedStays(s, t, todo);
    case Owning(_, todo) => ListedStays(s, t, todo);
    case Sending(_, todo) => ListedStays(s, t, todo);
    case InFlight(_, todo) => ListedStays(s, t, todo);
    case Finishing(_, _, _, _, next) => ListedStays(s, t, next.todo);
    case FinishStoring(_, _, next) => ListedStays(s, t, next.todo);
    case _ =>
  }

  lemma StoredIsOnFile(s: System, request: nat)
    requires Inv(s) && HasBox(s, request)
    ensures OnFile(s, Box(s, request)) && Box(s, request).request == request
  {
    assert BoxOk(s, request);
  }

  lemma FoundIsListed(s: System, found: seq<Notification>, state: State)
    requires Inv(s) && Found(s, found, state)
    ensures Listed(s, found) && (state.Claimed? ==> Claims(s, found))
  {
    forall i | 0 <= i < |found| ensures OnFile(s, found[i]) && (state.Claimed? ==> FoundClaimed(s, found[i])) {
      StoredIsOnFile(s, found[i].request);
    }
  }

  lemma RecoverRoutes(s: System, w: nat)
    requires At(s, w).Recovering? && RouteOk(s, w, At(s, w))
    ensures RouteOk(s, w, At(NextRecover(s, w, At(s, w)), w))
  {
    var p := At(s, w);
    if p.todo != [] {
      assert OnFile(s, p.todo[0]) && FoundClaimed(s, p.todo[0]);
    }
  }

  lemma DispatchRoutes(s: System, w: nat)
    requires At(s, w).Dispatching? && RouteOk(s, w, At(s, w))
    ensures RouteOk(s, w, At(NextDispatch(s, w, At(s, w)), w))
  {
    var p := At(s, w);
    if p.todo != [] {
      assert OnFile(s, p.todo[0]);
    }
  }

  lemma ClaimRoutes(s: System, w: nat, now: int, attempt: nat)
    requires Inv(s) && At(s, w).Claiming? && RouteOk(s, w, At(s, w))
    ensures RouteOk(s, w, At(NextClaim(s, w, At(s, w), now, attempt), w))
  {
    var p := At(s, w);
    if HasBox(s, p.request) {
      StoredIsOnFile(s, p.request);
    }
  }

  lemma FinishRoutes(s: System, w: nat, now: int)
    requires Inv(s) && At(s, w).Finishing? && RouteOk(s, w, At(s, w))
    ensures RouteOk(s, w, At(NextFinish(s, w, At(s, w), now), w))
  {
    hide Inv, Listed, Claims;
    var p := At(s, w);
    if HasBox(s, p.request) {
      StoredIsOnFile(s, p.request);
    }
  }

  lemma OthersRoute(s: System, w: nat, now: int, acked: bool, receipt: Option<nat>)
    requires RouteOk(s, w, At(s, w))
    ensures At(s, w).ClaimStoring? ==> RouteOk(s, w, At(NextClaimStore(s, w, At(s, w), acked), w))
    ensures At(s, w).Owning? ==> RouteOk(s, w, At(NextCheck(s, w, At(s, w)), w))
    ensures At(s, w).Sending? ==> RouteOk(s, w, At(NextSend(s, w, At(s, w)), w))
    ensures At(s, w).InFlight? ==> RouteOk(s, w, At(NextReply(s, w, At(s, w), receipt), w))
    ensures At(s, w).FinishStoring? ==> RouteOk(s, w, At(NextFinishStore(s, w, At(s, w), acked), w))
  {
    hide Listed, Claims, Admits, Batch, TransitionWrites;
  }

  /** The caller of a step stays within its authority. */
  lemma CallerRoutes(s: System, step: Step)
    requires Inv(s) && Routed(s)
    ensures RouteOk(s, step.caller, At(Next(s, step), step.caller))
  {
    hide Inv, Found, NextOpen, NextRecover, NextDispatch, NextClaim, NextClaimStore, NextCheck, NextSend, NextReply, NextFinish, NextFinishStore, Listed, Claims;
    var w, p := step.caller, At(s, step.caller);
    assert RouteOk(s, w, p);
    match step.act
    case Open(request, opsCase, at) => OpenMovesNoOne(s, request, opsCase, at);
    case Start(now, found) => if Found(s, found, Claimed) { FoundIsListed(s, found, Claimed); }
    case List(found) => if Found(s, found, Pending) { FoundIsListed(s, found, Pending); }
    case RecoverNext => if p.Recovering? { RecoverRoutes(s, w); }
    case DispatchNext => if p.Dispatching? { DispatchRoutes(s, w); }
    case ClaimLoad(now, attempt) => if p.Claiming? { ClaimRoutes(s, w, now, attempt); }
    case FinishLoad(now) => if p.Finishing? { FinishRoutes(s, w, now); }
    case ClaimStore(acked) => OthersRoute(s, w, 0, acked, None);
    case Check => OthersRoute(s, w, 0, true, None);
    case Send => OthersRoute(s, w, 0, true, None);
    case Reply(receipt) => OthersRoute(s, w, 0, true, receipt);
    case FinishStore(acked) => OthersRoute(s, w, 0, acked, None);
    case Crash =>
  }

  lemma OpenMovesNoOne(s: System, request: nat, opsCase: Case, at: int)
    ensures NextOpen(s, request, opsCase, at).callers == s.callers
  {
  }

  /** Only a send is a call, of the dispatcher that owns the entry. */
  lemma CallsRoute(s: System, step: Step)
    requires RouteOk(s, step.caller, At(s, step.caller))
    ensures var t := Next(s, step);
      t.calls == s.calls || (|t.calls| == |s.calls| + 1 && t.calls[..|s.calls|] == s.calls && CallRouted(s, t.calls[|s.calls|]))
  {
    hide Found, TransitionWrites, Admits, Batch, Listed, Claims;
  }

  lemma NextRoutes(s: System, step: Step)
    requires Inv(s) && Routed(s)
    ensures Routed(Next(s, step))
  {
    hide Inv, Next, RouteOk, OutboxSafety.Later;
    var t := Next(s, step);
    NextKeeps(s, step);
    CallerRoutes(s, step);
    CallsRoute(s, step);
    forall w: nat ensures RouteOk(t, w, At(t, w)) {
      if w != step.caller {
        OtherLeavesMe(s, w, step);
      }
      RouteStays(s, t, w, At(t, w));
    }
    forall i | 0 <= i < |t.calls| ensures CallRouted(t, t.calls[i]) {
      CallStays(s, t, t.calls[i]);
    }
  }

  lemma CallStays(s: System, t: System, c: Call)
    requires OutboxSafety.Later(s, t) && CallRouted(s, c)
    ensures CallRouted(t, c)
  {
  }

  lemma {:induction false} RoutedAlong(s: System, steps: seq<Step>)
    requires Inv(s) && Routed(s)
    ensures Inv(Run(Next, s, steps)) && Routed(Run(Next, s, steps))
  {
    hide Inv, Next, Routed;
    if steps != [] {
      RoutedAlong(s, steps[..|steps| - 1]);
      NextRoutes(Run(Next, s, steps[..|steps| - 1]), steps[|steps| - 1]);
      NextKeeps(Run(Next, s, steps[..|steps| - 1]), steps[|steps| - 1]);
    }
  }

  lemma Reaches(config: Config, steps: seq<Step>)
    ensures var t := Run(Next, Initial(config), steps); Inv(t) && Routed(t) && t.config == config
  {
    hide Inv, Next, OutboxSafety.Later;
    InitialOk(config);
    RoutedAlong(Initial(config), steps);
    HistoryOnlyGrows(Initial(config), steps);
    ConfigStays(Initial(config), Run(Next, Initial(config), steps));
  }

  lemma ConfigStays(s: System, t: System)
    requires OutboxSafety.Later(s, t)
    ensures t.config == s.config
  {
  }

  // ---------------------------------------------------------------- the results

  /** A message is sent only by a dispatcher of the very authority whose case it is, and names
      that case. */
  lemma MessagesStayWithTheirAuthority(config: Config, steps: seq<Step>, i: nat)
    requires i < |Run(Next, Initial(config), steps).calls|
    ensures var t := Run(Next, Initial(config), steps); var c := t.calls[i];
      && c.request in t.cases && c.caseId == t.cases[c.request].caseId
      && t.cases[c.request].tenant == config.authority(c.caller).tenant
      && t.cases[c.request].assignee == config.authority(c.caller).operations
  {
    hide Inv, Next;
    Reaches(config, steps);
    assert CallRouted(Run(Next, Initial(config), steps), Run(Next, Initial(config), steps).calls[i]);
  }

  /** No step of a dispatcher of another authority changes an entry: it is not claimed, finished
      or recovered. */
  lemma ForeignEntriesStay(config: Config, steps: seq<Step>, step: Step, request: nat)
    requires var s := Run(Next, Initial(config), steps);
      && HasBox(s, request) && request in s.cases
      && !(s.cases[request].tenant == config.authority(step.caller).tenant && s.cases[request].assignee == config.authority(step.caller).operations)
    ensures var s := Run(Next, Initial(config), steps); var t := Next(s, step); HasBox(t, request) && Box(t, request) == Box(s, request)
  {
    hide Inv, Next, Routed, Run;
    Reaches(config, steps);
    var s := Run(Next, Initial(config), steps);
    RouteOf(s, step.caller);
    BoxesOfOthers(s, step, request);
  }

  lemma RouteOf(s: System, w: nat)
    requires Routed(s)
    ensures RouteOk(s, w, At(s, w))
  {
  }

  lemma BoxesOfOthers(s: System, step: Step, request: nat)
    requires RouteOk(s, step.caller, At(s, step.caller)) && HasBox(s, request) && !Own(s, step.caller, request)
    ensures HasBox(Next(s, step), request) && Box(Next(s, step), request) == Box(s, request)
  {
    hide Found, Admits, Batch, TransitionWrites, Listed, Claims;
    var w, p := step.caller, At(s, step.caller);
    match step.act
    case Open(r, opsCase, at) => OpenWritesNew(s, r, opsCase, at, request);
    case ClaimStore(_) => if p.ClaimStoring? && p.updated.attempt.Some? { TransitionLeaves(s, p.updated, p.etag, request); }
    case FinishStore(_) => if p.FinishStoring? && p.updated.attempt.Some? { TransitionLeaves(s, p.updated, p.etag, request); }
    case _ =>
  }

  lemma TransitionLeaves(s: System, n: Notification, etag: nat, request: nat)
    requires n.attempt.Some? && n.request != request && HasBox(s, request)
    ensures var t := s.(docs := Batch(s.docs, TransitionWrites(n, etag))); HasBox(t, request) && Box(t, request) == Box(s, request)
  {
    var writes := TransitionWrites(n, etag);
    assert BoxId(request) !in writes;
    if Admits(s.docs, writes) {
      BatchContents(s.docs, writes);
    }
  }

  lemma OpenWritesNew(s: System, r: nat, opsCase: Case, at: int, request: nat)
    requires HasBox(s, request)
    ensures var t := NextOpen(s, r, opsCase, at); HasBox(t, request) && Box(t, request) == Box(s, request)
  {
    var writes: Writes<DocId, Doc> := map[BoxId(r) := Create(BoxDoc(Notification(r, opsCase, Pending, None, None, Some(at), None)))];
    assert BoxId(r) in writes;
    if Admits(s.docs, writes) {
      BatchContents(s.docs, writes);
    }
  }

  /** Recovery gives a claimant five minutes: what it is about to mark was claimed that long
      before. */
  lemma RecoveryWaits(config: Config, steps: seq<Step>, w: nat)
    requires var p := At(Run(Next, Initial(config), steps), w); p.FinishStoring? && p.next.AfterRecover?
    ensures var p := At(Run(Next, Initial(config), steps), w);
      && p.updated.state.Ambiguous?
      && p.updated.claimedAt.Some? && p.updated.updatedAt.Some? && p.updated.claimedAt.value + 300 <= p.updated.updatedAt.value
  {
    hide Inv, Next, Routed, Run, Listed, Claims;
    Reaches(config, steps);
    RouteOf(Run(Next, Initial(config), steps), w);
  }
}
