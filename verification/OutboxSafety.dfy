/** What every run of the outbox keeps: a claim is for good, and a message is sent at most once. */
module OutboxSafety {
  import opened Results
  import opened DocumentStore
  import opened Outbox
  import opened Traces

  // ---------------------------------------------------------------- the invariant

  ghost predicate BoxOk(s: System, request: nat)
    requires HasBox(s, request)
  {
    var n := Box(s, request);
    && n.request == request && WellFormed(n)
    && request in s.cases && n.opsCase == s.cases[request]
    && (n.state.Delivered? ==> Answer(request, n.attempt.value, n.receipt.value) in s.answers)
  }

  ghost predicate Filed(s: System) {
    && Tagged(s.docs)
    && (forall r: nat :: BoxId(r) in s.docs.docs ==> HasBox(s, r))
    && (forall r: nat :: HasBox(s, r) ==> BoxOk(s, r))
  }

  /** The entry is claimed, or was finished under this very attempt. */
  ghost predicate HeldBy(s: System, request: nat, attempt: Option<nat>) {
    attempt.Some? && HasBox(s, request) && !Box(s, request).state.Pending? && Box(s, request).attempt == attempt
  }

  ghost predicate SentUnder(s: System, request: nat, attempt: nat) {
    exists i :: 0 <= i < |s.calls| && s.calls[i].request == request && s.calls[i].attempt == attempt
  }

  ghost predicate Called(s: System, request: nat) {
    exists i :: 0 <= i < |s.calls| && s.calls[i].request == request
  }

  ghost predicate Answered(s: System, request: nat) {
    exists i :: 0 <= i < |s.answers| && s.answers[i].request == request
  }

  /** The caller that claimed the entry and has not been answered yet. */
  predicate Owner(p: Position) {
    p.Owning? || p.Sending? || p.InFlight?
  }

  ghost predicate PositionOk(s: System, p: Position) {
    match p
    case ClaimStoring(n, etag, _) =>
      && n.state.Claimed? && WellFormed(n) && HasBox(s, n.request) && etag < s.docs.clock
      && (TagOf(s, n.request) == etag ==>
            Box(s, n.request).state.Pending? && Box(s, n.request).opsCase == n.opsCase && NotBefore(Box(s, n.request).updatedAt, n.updatedAt))
    case Owning(n, _) => HeldBy(s, n.request, n.attempt) && !Called(s, n.request) && !Answered(s, n.request)
    case Sending(n, _) => HeldBy(s, n.request, n.attempt) && !Called(s, n.request) && !Answered(s, n.request)
    case InFlight(n, _) =>
      HeldBy(s, n.request, n.attempt) && !Answered(s, n.request) && SentUnder(s, n.request, n.attempt.value)
    case Finishing(request, attempt, outcome, receipt, next) =>
      && (outcome.Delivered? || outcome.Ambiguous?)
      && (outcome.Delivered? <==> receipt.Some? && receipt.value != BLANK)
      && (outcome.Delivered? ==> Answer(request, attempt, receipt.value) in s.answers)
      && (outcome.Ambiguous? ==> receipt.None?)
    case FinishStoring(n, etag, next) =>
      && (n.state.Delivered? || n.state.Ambiguous?) && WellFormed(n) && HasBox(s, n.request) && etag < s.docs.clock
      && (n.state.Delivered? ==> Answer(n.request, n.attempt.value, n.receipt.value) in s.answers)
      && (TagOf(s, n.request) == etag ==>
            && Box(s, n.request).state.Claimed? && Box(s, n.request).attempt == n.attempt
            && Box(s, n.request).claimedAt == n.claimedAt && Box(s, n.request).opsCase == n.opsCase
            && NotBefore(Box(s, n.request).updatedAt, n.updatedAt))
    case _ => true
  }

  ghost predicate OneOwner(s: System) {
    forall w, v :: w in s.callers && v in s.callers && w != v && Owner(s.callers[w]) && Owner(s.callers[v])
      ==> s.callers[w].claimed.request != s.callers[v].claimed.request
  }

  ghost predicate CallsOk(s: System) {
    && (forall i :: 0 <= i < |s.calls| ==> HeldBy(s, s.calls[i].request, Some(s.calls[i].attempt)))
    && (forall i, j :: 0 <= i < j < |s.calls| ==> s.calls[i].request != s.calls[j].request)
  }

  ghost predicate AnswersOk(s: System) {
    && (forall i :: 0 <= i < |s.answers| ==> SentUnder(s, s.answers[i].request, s.answers[i].attempt))
    && (forall i, j :: 0 <= i < j < |s.answers| ==> s.answers[i].request != s.answers[j].request)
  }

  ghost predicate Inv(s: System) {
    && Filed(s) && OneOwner(s) && CallsOk(s) && AnswersOk(s)
    && (forall w :: w in s.callers ==> PositionOk(s, s.callers[w]))
  }

  predicate Final(n: Notification) {
    n.state.Delivered? || n.state.Ambiguous?
  }

  /** What a later moment keeps of an earlier one. */
  ghost predicate Later(s: System, t: System) {
    && t.config == s.config && s.calls <= t.calls && s.answers <= t.answers
    && (forall r: nat :: r in s.cases ==> r in t.cases && t.cases[r] == s.cases[r])
    && (forall r: nat :: HasBox(s, r) ==> HasBox(t, r) && BoxLater(Box(s, r), Box(t, r)))
  }

  /** No time is taken back. */
  predicate NotBefore(a: Option<int>, b: Option<int>) {
    a.Some? ==> b.Some? && a.value <= b.value
  }

  /** A claim never becomes pending again and keeps its attempt; a final entry never changes. */
  ghost predicate BoxLater(n: Notification, m: Notification) {
    && (!n.state.Pending? ==> !m.state.Pending? && m.attempt == n.attempt && m.claimedAt == n.claimedAt)
    && (Final(n) ==> m == n)
    && NotBefore(n.updatedAt, m.updatedAt)
  }

  // ---------------------------------------------------------------- steps that write no document

  lemma SameBoxes(s: System, t: System)
    requires t.docs == s.docs && t.cases == s.cases && s.calls <= t.calls && s.answers <= t.answers && t.config == s.config
    ensures Later(s, t)
    ensures Filed(s) ==> Filed(t)
  {
    assert forall a :: a in s.answers ==> a in t.answers;
    forall r: nat | Filed(s) && HasBox(t, r) ensures BoxOk(t, r) {
      assert HasBox(s, r) && BoxOk(s, r);
    }
  }

  lemma GotoKeeps(s: System, w: nat, p: Position)
    requires Inv(s) && PositionOk(s, p)
    requires Owner(p) ==> Owner(At(s, w)) && At(s, w).claimed.request == p.claimed.request
    ensures Inv(Goto(s, w, p)) && Later(s, Goto(s, w, p))
  {
    hide Filed, PositionOk, Later, HeldBy;
    var t := Goto(s, w, p);
    SameBoxes(s, t);
    forall v | v in t.callers ensures PositionOk(t, t.callers[v]) {
      PositionSame(s, t, if v == w then p else s.callers[v]);
    }
    forall i | 0 <= i < |t.calls| ensures HeldBy(t, t.calls[i].request, Some(t.calls[i].attempt)) {
      HeldSame(s, t, s.calls[i].request, Some(s.calls[i].attempt));
    }
  }

  lemma HeldSame(s: System, t: System, request: nat, attempt: Option<nat>)
    requires HeldBy(s, request, attempt) && t.docs == s.docs
    ensures HeldBy(t, request, attempt)
  {
  }

  lemma PositionSame(s: System, t: System, p: Position)
    requires PositionOk(s, p) && t.docs == s.docs && t.calls == s.calls && t.answers == s.answers
    ensures PositionOk(t, p)
  {
    hide WellFormed;
  }

  lemma PlainKeeps(s: System, w: nat, p: Position)
    requires Inv(s) && (p.Idle? || p.Recovering? || p.Listing? || p.Dispatching? || p.Claiming?)
    ensures Inv(Goto(s, w, p)) && Later(s, Goto(s, w, p))
  {
    hide Inv, Later;
    assert PositionOk(s, p);
    GotoKeeps(s, w, p);
  }

  lemma AmbiguousKeeps(s: System, w: nat, request: nat, attempt: nat, next: Then)
    requires Inv(s)
    ensures var t := Goto(s, w, Finishing(request, attempt, Ambiguous, None, next)); Inv(t) && Later(s, t)
  {
    hide Inv, Later;
    var p := Finishing(request, attempt, Ambiguous, None, next);
    assert PositionOk(s, p);
    GotoKeeps(s, w, p);
  }

  lemma RecoverKeeps(s: System, w: nat, p: Position)
    requires Inv(s) && p.Recovering?
    ensures Inv(NextRecover(s, w, p)) && Later(s, NextRecover(s, w, p))
  {
    hide Inv, Later;
    if p.todo == [] {
      PlainKeeps(s, w, Listing);
    } else {
      var n, rest := p.todo[0], p.todo[1..];
      PlainKeeps(s, w, Recovering(rest, p.before, p.now));
      if n.attempt.Some? {
        AmbiguousKeeps(s, w, n.request, n.attempt.value, AfterRecover(rest, p.before, p.now));
      }
    }
  }

  lemma DispatchKeeps(s: System, w: nat, p: Position)
    requires Inv(s) && p.Dispatching?
    ensures Inv(NextDispatch(s, w, p)) && Later(s, NextDispatch(s, w, p))
  {
    hide Inv, Later;
    PlainKeeps(s, w, Idle);
    if p.todo != [] {
      PlainKeeps(s, w, Claiming(p.todo[0].request, p.todo[1..]));
      PlainKeeps(s, w, Dispatching(p.todo[1..]));
    }
  }

  lemma BoxFacts(s: System, request: nat)
    requires Inv(s) && HasBox(s, request)
    ensures BoxOk(s, request) && TagOf(s, request) < s.docs.clock
  {
  }

  lemma ClaimKeeps(s: System, w: nat, p: Position, now: int, attempt: nat)
    requires Inv(s) && p.Claiming?
    ensures Inv(NextClaim(s, w, p, now, attempt)) && Later(s, NextClaim(s, w, p, now, attempt))
  {
    hide Inv, Later;
    PlainKeeps(s, w, Idle);
    PlainKeeps(s, w, Dispatching(p.todo));
    if HasBox(s, p.request) {
      BoxFacts(s, p.request);
      var n := Box(s, p.request);
      if n.state.Pending? && !Backwards(n, now) {
        var claimed := n.(state := Claimed, attempt := Some(attempt), claimedAt := Some(now), updatedAt := Some(now));
        assert PositionOk(s, ClaimStoring(claimed, TagOf(s, p.request), p.todo));
        GotoKeeps(s, w, ClaimStoring(claimed, TagOf(s, p.request), p.todo));
      }
    }
  }

  lemma CheckKeeps(s: System, w: nat, p: Position)
    requires Inv(s) && p.Owning? && At(s, w) == p && PositionOk(s, p)
    ensures Inv(NextCheck(s, w, p)) && Later(s, NextCheck(s, w, p))
  {
    hide Inv, Later, HeldBy, Called, Answered;
    PlainKeeps(s, w, Idle);
    if p.claimed.attempt.Some? {
      AmbiguousKeeps(s, w, p.claimed.request, p.claimed.attempt.value, AfterAmbiguous(p.todo));
      assert PositionOk(s, Sending(p.claimed, p.todo));
      GotoKeeps(s, w, Sending(p.claimed, p.todo));
    }
  }

  /** The one send of a request: its claimant is the only one who can, and has not yet. */
  lemma SendKeeps(s: System, w: nat, p: Position)
    requires Inv(s) && p.Sending? && At(s, w) == p && PositionOk(s, p)
    ensures Inv(NextSend(s, w, p)) && Later(s, NextSend(s, w, p))
  {
    hide Filed, Later, HeldBy, WellFormed;
    var n := p.claimed;
    assert HeldBy(s, n.request, n.attempt);
    ClaimantHasAttempt(s, n);
    var t := NextSend(s, w, p);
    SameBoxes(s, t);
    forall v | v in t.callers ensures PositionOk(t, t.callers[v]) {
      SendLeaves(s, t, w, v, n);
    }
    forall i | 0 <= i < |t.calls| ensures HeldBy(t, t.calls[i].request, Some(t.calls[i].attempt)) {
      HeldSame(s, t, t.calls[i].request, Some(t.calls[i].attempt));
    }
    assert CallsOk(t);
    assert AnswersOk(t);
  }

  lemma ClaimantHasAttempt(s: System, n: Notification)
    requires HeldBy(s, n.request, n.attempt)
    ensures n.attempt.Some?
  {
  }

  lemma SentStays(s: System, t: System, request: nat, attempt: nat)
    requires s.calls <= t.calls && SentUnder(s, request, attempt)
    ensures SentUnder(t, request, attempt)
  {
    var i :| 0 <= i < |s.calls| && s.calls[i].request == request && s.calls[i].attempt == attempt;
    assert t.calls[i] == s.calls[i];
  }

  lemma SendLeaves(s: System, t: System, w: nat, v: nat, n: Notification)
    requires Inv(s) && w in s.callers && Owner(s.callers[w]) && s.callers[w].claimed == n && s.callers[w].Sending?
    requires n.attempt.Some?
    requires t == Goto(s.(calls := s.calls + [Call(w, n.request, n.opsCase.caseId, n.attempt.value)]), w, InFlight(n, s.callers[w].todo))
    requires v in t.callers
    ensures PositionOk(t, t.callers[v])
  {
    hide Filed, WellFormed, HeldBy, CallsOk, AnswersOk;
    assert PositionOk(s, s.callers[v]) && PositionOk(s, s.callers[w]);
    var p := t.callers[v];
    if Owner(p) {
      HeldSame(s, t, p.claimed.request, p.claimed.attempt);
      if v != w {
        assert p.claimed.request != n.request;
      }
    }
    assert t.calls[|s.calls|] == Call(w, n.request, n.opsCase.caseId, n.attempt.value);
    if p.InFlight? && v != w {
      SentStays(s, t, p.claimed.request, p.claimed.attempt.value);
    }
  }

  lemma ReplyKeeps(s: System, w: nat, p: Position, receipt: Option<nat>)
    requires Inv(s) && p.InFlight? && w in s.callers && s.callers[w] == p && PositionOk(s, p)
    ensures Inv(NextReply(s, w, p, receipt)) && Later(s, NextReply(s, w, p, receipt))
  {
    hide Filed, Later, HeldBy, WellFormed, PositionOk;
    var n := p.claimed;
    if n.attempt.None? {
      assert PositionOk(s, Idle) by {
        IdleOk(s);
      }
      GotoKeeps(s, w, Idle);
    } else if receipt.Some? && receipt.value != BLANK {
      InFlightFacts(s, p);
      var t := NextReply(s, w, p, receipt);
      SameBoxes(s, t);
      forall v | v in t.callers ensures PositionOk(t, t.callers[v]) {
        ReplyLeaves(s, t, w, v, n, receipt.value);
      }
      forall i | 0 <= i < |t.calls| ensures HeldBy(t, t.calls[i].request, Some(t.calls[i].attempt)) {
        HeldSame(s, t, t.calls[i].request, Some(t.calls[i].attempt));
      }
      assert AnswersOk(t);
    } else {
      hide Inv;
      AmbiguousKeeps(s, w, n.request, n.attempt.value, AfterAmbiguous(p.todo));
    }
  }

  lemma IdleOk(s: System)
    ensures PositionOk(s, Idle)
  {
  }

  lemma InFlightFacts(s: System, p: Position)
    requires PositionOk(s, p) && p.InFlight? && p.claimed.attempt.Some?
    ensures !Answered(s, p.claimed.request) && SentUnder(s, p.claimed.request, p.claimed.attempt.value)
  {
  }

  lemma ReplyLeaves(s: System, t: System, w: nat, v: nat, n: Notification, receipt: nat)
    requires Inv(s) && w in s.callers && s.callers[w].InFlight? && s.callers[w].claimed == n
    requires n.attempt.Some? && receipt != BLANK
    requires t == Goto(s.(answers := s.answers + [Answer(n.request, n.attempt.value, receipt)]), w,
                       Finishing(n.request, n.attempt.value, Delivered, Some(receipt), AfterDelivery(n, s.callers[w].todo)))
    requires v in t.callers
    ensures PositionOk(t, t.callers[v])
  {
    hide Filed, WellFormed, HeldBy, CallsOk, AnswersOk;
    var p := t.callers[v];
    assert t.answers[|s.answers|] == Answer(n.request, n.attempt.value, receipt);
    assert forall a :: a in s.answers ==> a in t.answers;
    if v != w {
      assert PositionOk(s, p);
      if Owner(p) {
        HeldSame(s, t, p.claimed.request, p.claimed.attempt);
        assert p.claimed.request != n.request;
      }
    }
  }

  lemma FinishKeeps(s: System, w: nat, p: Position, now: int)
    requires Inv(s) && p.Finishing? && PositionOk(s, p)
    ensures Inv(NextFinish(s, w, p, now)) && Later(s, NextFinish(s, w, p, now))
  {
    hide Inv, Later;
    UnfinishedKeeps(s, w, p.next, true);
    UnfinishedKeeps(s, w, p.next, false);
    var at := if p.next.AfterRecover? then p.next.now else now;
    if HasBox(s, p.request) {
      BoxFacts(s, p.request);
      var n := Box(s, p.request);
      if n.state.Claimed? && n.attempt == Some(p.attempt) && !Backwards(n, at) {
        var q := FinishStoring(n.(state := p.outcome, receipt := p.receipt, updatedAt := Some(at)), TagOf(s, p.request), p.next);
        assert PositionOk(s, q);
        GotoKeeps(s, w, q);
      }
    }
  }

  lemma UnfinishedKeeps(s: System, w: nat, next: Then, conflict: bool)
    requires Inv(s)
    ensures Inv(Unfinished(s, w, next, conflict)) && Later(s, Unfinished(s, w, next, conflict))
  {
    hide Inv, Later;
    PlainKeeps(s, w, Idle);
    match next
    case AfterRecover(todo, before, now) => PlainKeeps(s, w, Recovering(todo, before, now));
    case AfterDelivery(n, todo) => if n.attempt.Some? { AmbiguousKeeps(s, w, n.request, n.attempt.value, AfterAmbiguous(todo)); }
    case AfterAmbiguous(todo) => PlainKeeps(s, w, Dispatching(todo));
  }

  lemma FinishedKeeps(s: System, w: nat, next: Then)
    requires Inv(s)
    ensures Inv(Finished(s, w, next)) && Later(s, Finished(s, w, next))
  {
    hide Inv, Later;
    match next
    case AfterRecover(todo, before, now) => PlainKeeps(s, w, Recovering(todo, before, now));
    case AfterDelivery(_, todo) => PlainKeeps(s, w, Dispatching(todo));
    case AfterAmbiguous(todo) => PlainKeeps(s, w, Dispatching(todo));
  }

  // ---------------------------------------------------------------- steps that write a box

  /** One box was written under a new tag; the others, the calls and the answers stay. */
  ghost predicate Moved(s: System, t: System, n: Notification) {
    && t == s.(docs := t.docs, cases := t.cases)
    && (forall r: nat :: r in s.cases ==> r in t.cases && t.cases[r] == s.cases[r])
    && HasBox(t, n.request) && Box(t, n.request) == n && TagOf(t, n.request) == s.docs.clock && s.docs.clock < t.docs.clock
    && (forall r: nat :: r != n.request ==> (BoxId(r) in t.docs.docs <==> BoxId(r) in s.docs.docs))
    && (forall r: nat :: r != n.request && BoxId(r) in s.docs.docs ==> t.docs.docs[BoxId(r)] == s.docs.docs[BoxId(r)])
    && Filed(t)
  }

  lemma TransitionEffect(s: System, n: Notification, etag: nat)
    requires Filed(s) && n.attempt.Some? && HasBox(s, n.request) && Admits(s.docs, TransitionWrites(n, etag))
    requires WellFormed(n) && n.opsCase == Box(s, n.request).opsCase
    requires n.state.Delivered? ==> Answer(n.request, n.attempt.value, n.receipt.value) in s.answers
    ensures TagOf(s, n.request) == etag
    ensures Moved(s, s.(docs := Batch(s.docs, TransitionWrites(n, etag))), n)
  {
    var writes := TransitionWrites(n, etag);
    assert BoxId(n.request) in writes;
    BatchKeepsTags(s.docs, writes);
    BatchContents(s.docs, writes);
    hide Batch, Admits, WellFormed;
    var t := s.(docs := Batch(s.docs, writes));
    forall r: nat | HasBox(t, r) ensures BoxOk(t, r) {
      if r != n.request {
        assert BoxId(r) !in writes;
        assert HasBox(s, r) && BoxOk(s, r);
      } else {
        assert BoxOk(s, r);
      }
    }
  }

  lemma HeldStays(s: System, t: System, n: Notification, request: nat, attempt: Option<nat>)
    requires Moved(s, t, n) && HeldBy(s, request, attempt)
    requires HasBox(s, n.request) ==> BoxLater(Box(s, n.request), n)
    ensures HeldBy(t, request, attempt)
  {
    hide Filed;
  }

  lemma MovedIsLater(s: System, t: System, n: Notification)
    requires Moved(s, t, n) && (HasBox(s, n.request) ==> BoxLater(Box(s, n.request), n))
    ensures Later(s, t)
  {
    hide Filed, WellFormed;
  }

  /** A box that moved forward keeps everyone's position: who read the old tag can no longer
      write. */
  lemma MovedKeeps(s: System, t: System, n: Notification)
    requires Inv(s) && Moved(s, t, n) && (HasBox(s, n.request) ==> BoxLater(Box(s, n.request), n))
    ensures Inv(t) && Later(s, t)
  {
    hide Filed, WellFormed, HeldBy, Later, BoxLater, PositionOk;
    MovedIsLater(s, t, n);
    MovedIsFiled(s, t, n);
    forall v | v in t.callers ensures PositionOk(t, t.callers[v]) {
      MovedPosition(s, t, n, s.callers[v]);
    }
    forall i | 0 <= i < |t.calls| ensures HeldBy(t, t.calls[i].request, Some(t.calls[i].attempt)) {
      HeldStays(s, t, n, s.calls[i].request, Some(s.calls[i].attempt));
    }
  }

  lemma MovedIsFiled(s: System, t: System, n: Notification)
    requires Moved(s, t, n)
    ensures Filed(t) && t.callers == s.callers && t.calls == s.calls && t.answers == s.answers
  {
  }

  lemma MovedPosition(s: System, t: System, n: Notification, p: Position)
    requires Filed(s) && PositionOk(s, p) && Moved(s, t, n) && (HasBox(s, n.request) ==> BoxLater(Box(s, n.request), n))
    ensures PositionOk(t, p)
  {
    hide WellFormed, HeldBy, BoxLater, Filed;
    if Owner(p) {
      HeldStays(s, t, n, p.claimed.request, p.claimed.attempt);
    }
  }

  lemma OpenKeeps(s: System, request: nat, opsCase: Case, at: int)
    requires Inv(s)
    ensures Inv(NextOpen(s, request, opsCase, at)) && Later(s, NextOpen(s, request, opsCase, at))
  {
    var n := Notification(request, opsCase, Pending, None, None, Some(at), None);
    var writes: Writes<DocId, Doc> := map[BoxId(request) := Create(BoxDoc(n))];
    if request !in s.cases && Admits(s.docs, writes) {
      assert BoxId(request) in writes;
      OpenEffect(s, n, writes);
      hide Inv, Later, Moved;
      MovedKeeps(s, NextOpen(s, request, opsCase, at), n);
    } else {
      SameBoxes(s, s);
    }
  }

  lemma OpenEffect(s: System, n: Notification, writes: Writes<DocId, Doc>)
    requires Filed(s) && n.state.Pending? && WellFormed(n) && n.request !in s.cases
    requires writes == map[BoxId(n.request) := Create(BoxDoc(n))] && Admits(s.docs, writes)
    ensures !HasBox(s, n.request)
    ensures Moved(s, s.(cases := s.cases[n.request := n.opsCase], docs := Batch(s.docs, writes)), n)
  {
    BatchKeepsTags(s.docs, writes);
    BatchContents(s.docs, writes);
    hide Batch, WellFormed;
    var t := s.(cases := s.cases[n.request := n.opsCase], docs := Batch(s.docs, writes));
    assert BoxId(n.request) in writes;
    forall r: nat | HasBox(t, r) ensures BoxOk(t, r) {
      if r != n.request {
        assert HasBox(s, r) && BoxOk(s, r);
      }
    }
  }

  /** The claim that takes effect finds the entry pending, so no one owned it and nothing was
      ever sent for it. */
  lemma ClaimStoreKeeps(s: System, w: nat, p: Position, acked: bool)
    requires Inv(s) && p.ClaimStoring? && PositionOk(s, p)
    ensures Inv(NextClaimStore(s, w, p, acked)) && Later(s, NextClaimStore(s, w, p, acked))
  {
    var n := p.updated;
    if n.attempt.None? || !Admits(s.docs, TransitionWrites(n, p.etag)) {
      hide Inv, Later;
      PlainKeeps(s, w, Dispatching(p.todo));
    } else {
      AdmittedClaim(s, n, p.etag);
      var t := s.(docs := Batch(s.docs, TransitionWrites(n, p.etag)));
      PendingIsUntouched(s, n.request);
      hide Inv, Later, Moved, Filed, HeldBy, Batch;
      MovedKeeps(s, t, n);
      if acked {
        OwnNow(s, t, w, n, p.todo);
      } else {
        PlainKeeps(t, w, Idle);
      }
      LaterComposes(s, t, NextClaimStore(s, w, p, acked));
    }
  }

  lemma AdmittedClaim(s: System, n: Notification, etag: nat)
    requires Inv(s) && n.attempt.Some? && Admits(s.docs, TransitionWrites(n, etag))
    requires PositionOk(s, ClaimStoring(n, etag, []))
    ensures HasBox(s, n.request) && Box(s, n.request).state.Pending?
    ensures Moved(s, s.(docs := Batch(s.docs, TransitionWrites(n, etag))), n)
    ensures BoxLater(Box(s, n.request), n)
  {
    assert BoxId(n.request) in TransitionWrites(n, etag);
    TransitionEffect(s, n, etag);
  }

  lemma CalledIsClaimed(s: System, request: nat)
    requires Inv(s) && Called(s, request)
    ensures HasBox(s, request) && !Box(s, request).state.Pending?
  {
    var i :| 0 <= i < |s.calls| && s.calls[i].request == request;
    assert HeldBy(s, s.calls[i].request, Some(s.calls[i].attempt));
  }

  lemma AnsweredIsCalled(s: System, request: nat)
    requires Inv(s) && Answered(s, request)
    ensures Called(s, request)
  {
    var i :| 0 <= i < |s.answers| && s.answers[i].request == request;
    assert SentUnder(s, s.answers[i].request, s.answers[i].attempt);
  }

  lemma OwnedIsClaimed(s: System, w: nat)
    requires Inv(s) && w in s.callers && Owner(s.callers[w])
    ensures var request := s.callers[w].claimed.request; HasBox(s, request) && !Box(s, request).state.Pending?
  {
    assert PositionOk(s, s.callers[w]);
  }

  lemma PendingIsUntouched(s: System, request: nat)
    requires Inv(s) && HasBox(s, request) && Box(s, request).state.Pending?
    ensures !Called(s, request) && !Answered(s, request)
    ensures forall w :: w in s.callers && Owner(s.callers[w]) ==> s.callers[w].claimed.request != request
  {
    hide Inv, Called, Answered;
    if Answered(s, request) {
      AnsweredIsCalled(s, request);
    }
    if Called(s, request) {
      CalledIsClaimed(s, request);
    }
    forall w | w in s.callers && Owner(s.callers[w]) ensures s.callers[w].claimed.request != request {
      OwnedIsClaimed(s, w);
    }
  }

  lemma OwnNow(s: System, t: System, w: nat, n: Notification, todo: seq<Notification>)
    requires Inv(t) && Moved(s, t, n) && n.state.Claimed? && n.attempt.Some?
    requires !Called(s, n.request) && !Answered(s, n.request)
    requires forall v :: v in s.callers && Owner(s.callers[v]) ==> s.callers[v].claimed.request != n.request
    ensures Inv(Goto(t, w, Owning(n, todo))) && Later(t, Goto(t, w, Owning(n, todo)))
  {
    hide Filed, Later, WellFormed;
    var u := Goto(t, w, Owning(n, todo));
    SameBoxes(t, u);
    assert HeldBy(t, n.request, n.attempt);
    assert PositionOk(t, Owning(n, todo));
    forall v | v in u.callers ensures PositionOk(u, u.callers[v]) {
      PositionSame(t, u, if v == w then Owning(n, todo) else t.callers[v]);
    }
    forall i | 0 <= i < |u.calls| ensures HeldBy(u, u.calls[i].request, Some(u.calls[i].attempt)) {
      HeldSame(t, u, t.calls[i].request, Some(t.calls[i].attempt));
    }
  }

  lemma FinishStoreKeeps(s: System, w: nat, p: Position, acked: bool)
    requires Inv(s) && p.FinishStoring? && PositionOk(s, p)
    ensures Inv(NextFinishStore(s, w, p, acked)) && Later(s, NextFinishStore(s, w, p, acked))
  {
    var n := p.updated;
    if n.attempt.None? || !Admits(s.docs, TransitionWrites(n, p.etag)) {
      hide Inv, Later;
      UnfinishedKeeps(s, w, p.next, true);
    } else {
      AdmittedFinish(s, p);
      var t := s.(docs := Batch(s.docs, TransitionWrites(n, p.etag)));
      hide Inv, Later, Moved, Filed, HeldBy, Batch;
      MovedKeeps(s, t, n);
      FinishedKeeps(t, w, p.next);
      UnfinishedKeeps(t, w, p.next, false);
      LaterComposes(s, t, NextFinishStore(s, w, p, acked));
    }
  }

  lemma AdmittedFinish(s: System, p: Position)
    requires Inv(s) && p.FinishStoring? && PositionOk(s, p) && p.updated.attempt.Some?
    requires Admits(s.docs, TransitionWrites(p.updated, p.etag))
    ensures var n := p.updated;
      && HasBox(s, n.request) && BoxLater(Box(s, n.request), n)
      && Moved(s, s.(docs := Batch(s.docs, TransitionWrites(n, p.etag))), n)
  {
    var n := p.updated;
    assert BoxId(n.request) in TransitionWrites(n, p.etag);
    TransitionEffect(s, n, p.etag);
  }

  // ---------------------------------------------------------------- every step

  lemma CallerOk(s: System, w: nat)
    requires Inv(s)
    ensures PositionOk(s, At(s, w)) && (At(s, w).Idle? || w in s.callers)
  {
  }

  lemma NextKeeps(s: System, step: Step)
    requires Inv(s)
    ensures Inv(Next(s, step)) && Later(s, Next(s, step))
  {
    hide Inv, Later, PositionOk, Found, NextOpen, NextRecover, NextDispatch, NextClaim, NextClaimStore, NextCheck, NextSend, NextReply, NextFinish, NextFinishStore;
    var w, p := step.caller, At(s, step.caller);
    SameIsLater(s);
    CallerOk(s, w);
    match step.act
    case Open(request, opsCase, at) => OpenKeeps(s, request, opsCase, at);
    case Start(now, found) => PlainKeeps(s, w, Recovering(found, now - STALE_AFTER, now));
    case RecoverNext => if p.Recovering? { RecoverKeeps(s, w, p); }
    case List(found) => PlainKeeps(s, w, Dispatching(found));
    case DispatchNext => if p.Dispatching? { DispatchKeeps(s, w, p); }
    case ClaimLoad(now, attempt) => if p.Claiming? { ClaimKeeps(s, w, p, now, attempt); }
    case ClaimStore(acked) => if p.ClaimStoring? { ClaimStoreKeeps(s, w, p, acked); }
    case Check => if p.Owning? { CheckKeeps(s, w, p); }
    case Send => if p.Sending? { SendKeeps(s, w, p); }
    case Reply(receipt) => if p.InFlight? { ReplyKeeps(s, w, p, receipt); }
    case FinishLoad(now) => if p.Finishing? { FinishKeeps(s, w, p, now); }
    case FinishStore(acked) => if p.FinishStoring? { FinishStoreKeeps(s, w, p, acked); }
    case Crash => PlainKeeps(s, w, Idle);
  }

  lemma SameIsLater(s: System)
    ensures Later(s, s)
  {
  }

  lemma LaterComposes(s: System, t: System, u: System)
    requires Later(s, t) && Later(t, u)
    ensures Later(s, u)
  {
  }

  lemma OtherLeavesMe(s: System, me: nat, step: Step)
    requires step.caller != me
    ensures At(Next(s, step), me) == At(s, me) && Next(s, step).config == s.config
  {
    hide Found, TransitionWrites, Admits, Batch;
  }

  // ---------------------------------------------------------------- the results

  lemma InitialOk(config: Config)
    ensures Inv(Initial(config))
  {
  }

  lemma {:induction false} HistoryOnlyGrows(s: System, steps: seq<Step>)
    requires Inv(s)
    ensures Inv(Run(Next, s, steps)) && Later(s, Run(Next, s, steps))
  {
    hide Inv, Later, Next;
    if steps == [] {
      SameIsLater(s);
    } else {
      var t := Run(Next, s, steps[..|steps| - 1]);
      HistoryOnlyGrows(s, steps[..|steps| - 1]);
      NextKeeps(t, steps[|steps| - 1]);
      LaterComposes(s, t, Next(t, steps[|steps| - 1]));
    }
  }

  /** However many dispatchers run, stop and are recovered, no request's message is handed to the
      sender twice; and what was sent was sent under the attempt that still holds the entry. */
  lemma SentAtMostOnce(config: Config, steps: seq<Step>, i: nat)
    requires i < |Run(Next, Initial(config), steps).calls|
    ensures var t := Run(Next, Initial(config), steps);
      && (forall j :: 0 <= j < |t.calls| && t.calls[j].request == t.calls[i].request ==> j == i)
      && HasBox(t, t.calls[i].request) && !Box(t, t.calls[i].request).state.Pending?
      && Box(t, t.calls[i].request).attempt == Some(t.calls[i].attempt)
  {
    InitialOk(config);
    HistoryOnlyGrows(Initial(config), steps);
    var t := Run(Next, Initial(config), steps);
    assert HeldBy(t, t.calls[i].request, Some(t.calls[i].attempt));
  }

  /** A claim never returns to pending, and a delivered or ambiguous entry never changes. */
  lemma ClaimsAreIrreversible(config: Config, first: seq<Step>, second: seq<Step>, request: nat)
    requires HasBox(Run(Next, Initial(config), first), request)
    ensures var s, t := Run(Next, Initial(config), first), Run(Next, Initial(config), first + second);
      && HasBox(t, request)
      && (!Box(s, request).state.Pending? ==> !Box(t, request).state.Pending? && Box(t, request).attempt == Box(s, request).attempt)
      && (Final(Box(s, request)) ==> Box(t, request) == Box(s, request))
  {
    InitialOk(config);
    HistoryOnlyGrows(Initial(config), first);
    RunAppend(Next, Initial(config), first, second);
    HistoryOnlyGrows(Run(Next, Initial(config), first), second);
    assert BoxLater(Box(Run(Next, Initial(config), first), request), Box(Run(Next, Initial(config), first + second), request));
  }

  /** A delivered entry carries the receipt that its one send was answered with. */
  lemma DeliveredCarriesItsReceipt(config: Config, steps: seq<Step>, request: nat)
    requires var t := Run(Next, Initial(config), steps); HasBox(t, request) && Box(t, request).state.Delivered?
    ensures var t := Run(Next, Initial(config), steps);
      && Box(t, request).receipt.Some? && Box(t, request).attempt.Some? && Box(t, request).receipt.value != BLANK
      && Answer(request, Box(t, request).attempt.value, Box(t, request).receipt.value) in t.answers
      && SentUnder(t, request, Box(t, request).attempt.value)
      && (forall i, j :: 0 <= i < j < |t.answers| ==> t.answers[i].request != t.answers[j].request)
  {
    InitialOk(config);
    HistoryOnlyGrows(Initial(config), steps);
    var t := Run(Next, Initial(config), steps);
    assert BoxOk(t, request);
    var i :| 0 <= i < |t.answers| && t.answers[i] == Answer(request, Box(t, request).attempt.value, Box(t, request).receipt.value);
  }
}
