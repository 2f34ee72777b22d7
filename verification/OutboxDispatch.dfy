/** `dispatch_once` and `recover_stale_claims` as the loops they are, with the other dispatchers
    running wherever the store or the sender is awaited. */
module OutboxDispatch {
  import opened Results
  import opened DocumentStore
  import opened Outbox
  import opened OutboxSafety
  import opened OutboxRouting
  import opened Traces

  /** What one awaited moment brings: the steps of the others, the clock, a fresh attempt id,
      whether a write is acknowledged, and what the sender says. */
  datatype Moment = Moment(others: seq<Step>, now: int, attempt: nat, acked: bool, receipt: Option<nat>)

  type World = nat -> Moment

  /** A query of the outbox: some of the entries that are stored in the asked-for state. */
  type Query = System -> seq<Notification>

  ghost predicate Asks(query: Query, state: State) {
    forall s: System :: Found(s, query(s), state)
  }

  ghost predicate LeavesMeAlone(me: nat, world: World) {
    forall n: nat, i :: 0 <= i < |world(n).others| ==> world(n).others[i].caller != me
  }

  lemma {:induction false} OthersLeaveMe(s: System, me: nat, steps: seq<Step>)
    requires forall i :: 0 <= i < |steps| ==> steps[i].caller != me
    ensures At(Run(Next, s, steps), me) == At(s, me) && Run(Next, s, steps).config == s.config
  {
    if steps != [] {
      OthersLeaveMe(s, me, steps[..|steps| - 1]);
      OtherLeavesMe(Run(Next, s, steps[..|steps| - 1]), me, steps[|steps| - 1]);
    }
  }

  /** How a mark ended. */
  datatype Mark = Marked | ConflictRaised | ErrorRaised

  function AfterMark(next: Then, mark: Mark): Position {
    if mark.Marked? then Resumed(next) else GivenUp(next, mark.ConflictRaised?)
  }

  // ---------------------------------------------------------------- single steps, unfolded

  lemma NextIsRecover(s: System, me: nat)
    requires At(s, me).Recovering?
    ensures Next(s, Step(me, RecoverNext)) == NextRecover(s, me, At(s, me))
  {
  }

  lemma NextIsStart(s: System, me: nat, now: int, found: seq<Notification>)
    requires At(s, me).Idle? && Found(s, found, Claimed)
    ensures Next(s, Step(me, Start(now, found))) == Goto(s, me, Recovering(found, now - STALE_AFTER, now))
  {
  }

  lemma NextIsList(s: System, me: nat, found: seq<Notification>)
    requires At(s, me).Listing? && Found(s, found, Pending)
    ensures Next(s, Step(me, List(found))) == Goto(s, me, Dispatching(found))
  {
  }

  lemma NextIsDispatch(s: System, me: nat)
    requires At(s, me).Dispatching?
    ensures Next(s, Step(me, DispatchNext)) == NextDispatch(s, me, At(s, me))
  {
  }

  lemma NextIsClaim(s: System, me: nat, now: int, attempt: nat)
    requires At(s, me).Claiming?
    ensures Next(s, Step(me, ClaimLoad(now, attempt))) == NextClaim(s, me, At(s, me), now, attempt)
  {
  }

  lemma NextIsClaimStore(s: System, me: nat, acked: bool)
    requires At(s, me).ClaimStoring?
    ensures Next(s, Step(me, ClaimStore(acked))) == NextClaimStore(s, me, At(s, me), acked)
  {
  }

  lemma NextIsSend(s: System, me: nat, receipt: Option<nat>)
    ensures At(s, me).Owning? ==> Next(s, Step(me, Check)) == NextCheck(s, me, At(s, me))
    ensures At(s, me).Sending? ==> Next(s, Step(me, Send)) == NextSend(s, me, At(s, me))
    ensures At(s, me).InFlight? ==> Next(s, Step(me, Reply(receipt))) == NextReply(s, me, At(s, me), receipt)
  {
  }

  lemma NextIsFinish(s: System, me: nat, now: int, acked: bool)
    ensures At(s, me).Finishing? ==> Next(s, Step(me, FinishLoad(now))) == NextFinish(s, me, At(s, me), now)
    ensures At(s, me).FinishStoring? ==> Next(s, Step(me, FinishStore(acked))) == NextFinishStore(s, me, At(s, me), acked)
  {
  }

  lemma NoSteps(s: System)
    ensures Run(Next, s, []) == s
  {
  }

  class Dispatcher {
    const config: Config
    var cases: map<nat, Case>
    var docs: Partition<DocId, Doc>
    var callers: map<nat, Position>
    var calls: seq<Call>
    var answers: seq<Answer>

    constructor (config: Config)
      ensures State() == Initial(config)
    {
      this.config := config;
      cases, docs, callers, calls, answers := map[], Partition(map[], 0), map[], [], [];
    }

    function State(): System
      reads this
    {
      System(config, cases, docs, callers, calls, answers)
    }

    method Await(me: nat, others: seq<Step>)
      requires forall i :: 0 <= i < |others| ==> others[i].caller != me
      modifies this
      ensures State() == Run(Next, old(State()), others)
      ensures At(State(), me) == old(At(State(), me))
    {
      OthersLeaveMe(State(), me, others);
      var s := Run(Next, State(), others);
      cases, docs, callers, calls, answers := s.cases, s.docs, s.callers, s.calls, s.answers;
    }

    /** `claim_notification`. None is an entry that is not pending, or a conflict. */
    method Claim(me: nat, request: nat, todo: seq<Notification>, world: World, tick: nat)
      returns (r: Result<Option<Notification>, Mark>, ghost trace: seq<Step>)
      requires LeavesMeAlone(me, world) && At(State(), me) == Claiming(request, todo)
      modifies this
      ensures State() == Run(Next, old(State()), trace)
      ensures At(State(), me) == match r
                                 case Err(_) => Idle
                                 case Ok(None) => Dispatching(todo)
                                 case Ok(Some(n)) => Owning(n, todo)
      ensures r.Ok? && r.value.Some? ==> r.value.value.attempt.Some?
    {
      hide Next, Run, Admits, Batch, TransitionWrites;
      ghost var s0 := State();
      Await(me, world(tick).others);
      var now := world(tick).now;
      ghost var s1 := State();
      NextIsClaim(s1, me, now, world(tick).attempt);
      NoSteps(s0);
      RunExtend(Next, s0, s0, [], world(tick).others, s1, Step(me, ClaimLoad(now, world(tick).attempt)));
      trace := [] + world(tick).others + [Step(me, ClaimLoad(now, world(tick).attempt))];
      if !HasBox(State(), request) {
        callers := callers[me := Idle];
        return Err(ErrorRaised), trace;
      }
      var current := docs.docs[BoxId(request)].body.notification;
      var etag := docs.docs[BoxId(request)].etag;
      if !current.state.Pending? {
        callers := callers[me := Dispatching(todo)];
        return Ok(None), trace;
      }
      if current.updatedAt.Some? && now < current.updatedAt.value {
        callers := callers[me := Idle];
        return Err(ErrorRaised), trace;
      }
      var claimed := current.(state := Claimed, attempt := Some(world(tick).attempt), claimedAt := Some(now), updatedAt := Some(now));
      callers := callers[me := ClaimStoring(claimed, etag, todo)];
      r, trace := StoreClaim(me, claimed, etag, todo, world, tick + 1, s0, trace);
    }

    method StoreClaim(me: nat, claimed: Notification, etag: nat, todo: seq<Notification>, world: World, tick: nat,
                      ghost s0: System, ghost before: seq<Step>)
      returns (r: Result<Option<Notification>, Mark>, ghost trace: seq<Step>)
      requires LeavesMeAlone(me, world) && claimed.attempt.Some?
      requires At(State(), me) == ClaimStoring(claimed, etag, todo) && State() == Run(Next, s0, before)
      modifies this
      ensures State() == Run(Next, s0, trace)
      ensures At(State(), me) == match r
                                 case Err(_) => Idle
                                 case Ok(None) => Dispatching(todo)
                                 case Ok(Some(n)) => Owning(n, todo)
      ensures r.Ok? && r.value.Some? ==> r.value.value == claimed
    {
      hide Next, Run, Admits, Batch, TransitionWrites;
      ghost var s1 := State();
      Await(me, world(tick).others);
      ghost var s2 := State();
      NextIsClaimStore(s2, me, world(tick).acked);
      RunExtend(Next, s0, s1, before, world(tick).others, s2, Step(me, ClaimStore(world(tick).acked)));
      trace := before + world(tick).others + [Step(me, ClaimStore(world(tick).acked))];
      var operations := TransitionWrites(claimed, etag);
      if !Admits(docs, operations) {
        callers := callers[me := Dispatching(todo)];
        return Ok(None), trace;
      }
      docs := Batch(docs, operations);
      if !world(tick).acked {
        callers := callers[me := Idle];
        return Err(ErrorRaised), trace;
      }
      callers := callers[me := Owning(claimed, todo)];
      return Ok(Some(claimed)), trace;
    }

    /** `_finish`: the claim is read, checked to be this attempt's, and replaced. */
    method Finish(me: nat, request: nat, attempt: nat, outcome: State, receipt: Option<nat>, next: Then, world: World, tick: nat,
                  ghost s0: System, ghost before: seq<Step>)
      returns (r: Mark, ghost trace: seq<Step>)
      requires LeavesMeAlone(me, world)
      requires At(State(), me) == Finishing(request, attempt, outcome, receipt, next) && State() == Run(Next, s0, before)
      modifies this
      ensures State() == Run(Next, s0, trace)
      ensures At(State(), me) == AfterMark(next, r)
      ensures r.Marked? && Inv(s0) ==> HasBox(State(), request)
      ensures r.Marked? && Inv(s0) ==> Box(State(), request).state == outcome && Box(State(), request).receipt == receipt
      ensures r.Marked? && Inv(s0) ==> Box(State(), request).attempt == Some(attempt)
    {
      hide Next, Run, Admits, Batch, TransitionWrites, Inv, OutboxSafety.Later, Routed;
      ghost var s1 := State();
      Await(me, world(tick).others);
      ghost var s2 := State();
      NextIsFinish(s2, me, world(tick).now, true);
      RunExtend(Next, s0, s1, before, world(tick).others, s2, Step(me, FinishLoad(world(tick).now)));
      trace := before + world(tick).others + [Step(me, FinishLoad(world(tick).now))];
      var now := if next.AfterRecover? then next.now else world(tick).now;
      if !HasBox(State(), request) {
        callers := callers[me := GivenUp(next, false)];
        return ErrorRaised, trace;
      }
      var current := docs.docs[BoxId(request)].body.notification;
      var etag := docs.docs[BoxId(request)].etag;
      if current.state != Claimed || current.attempt != Some(attempt) {
        callers := callers[me := GivenUp(next, true)];
        return ConflictRaised, trace;
      }
      if current.updatedAt.Some? && now < current.updatedAt.value {
        callers := callers[me := GivenUp(next, false)];
        return ErrorRaised, trace;
      }
      KeyedAlong(s0, before, s1, world(tick).others, s2, request);
      var updated := current.(state := outcome, receipt := receipt, updatedAt := Some(now));
      callers := callers[me := FinishStoring(updated, etag, next)];
      r, trace := StoreFinish(me, updated, etag, next, world, tick + 1, s0, trace);
    }

    method StoreFinish(me: nat, updated: Notification, etag: nat, next: Then, world: World, tick: nat,
                       ghost s0: System, ghost before: seq<Step>)
      returns (r: Mark, ghost trace: seq<Step>)
      requires LeavesMeAlone(me, world) && updated.attempt.Some?
      requires At(State(), me) == FinishStoring(updated, etag, next) && State() == Run(Next, s0, before)
      modifies this
      ensures State() == Run(Next, s0, trace)
      ensures At(State(), me) == AfterMark(next, r)
      ensures r.Marked? ==> HasBox(State(), updated.request) && Box(State(), updated.request) == updated
    {
      hide Next, Run, Admits, Batch, TransitionWrites;
      ghost var s1 := State();
      Await(me, world(tick).others);
      ghost var s2 := State();
      NextIsFinish(s2, me, 0, world(tick).acked);
      RunExtend(Next, s0, s1, before, world(tick).others, s2, Step(me, FinishStore(world(tick).acked)));
      trace := before + world(tick).others + [Step(me, FinishStore(world(tick).acked))];
      var operations := TransitionWrites(updated, etag);
      if !Admits(docs, operations) {
        callers := callers[me := GivenUp(next, true)];
        return ConflictRaised, trace;
      }
      TransitionStores(docs, updated, etag);
      docs := Batch(docs, operations);
      r := if world(tick).acked then Marked else ErrorRaised;
      callers := callers[me := AfterMark(next, r)];
    }

    /** One found entry: None is one that recovery leaves alone. */
    method RecoverOne(me: nat, n: Notification, todo: seq<Notification>, before: int, now: int, world: World, tick: nat,
                      ghost s0: System, ghost prior: seq<Step>)
      returns (r: Option<Mark>, ghost trace: seq<Step>)
      requires LeavesMeAlone(me, world)
      requires At(State(), me) == Recovering([n] + todo, before, now) && State() == Run(Next, s0, prior)
      modifies this
      ensures State() == Run(Next, s0, trace)
      ensures At(State(), me) == if r == Some(ErrorRaised) then Idle else Recovering(todo, before, now)
      ensures r.Some? <==>
        && n.opsCase.tenant == config.authority(me).tenant && n.opsCase.assignee == config.authority(me).operations
        && n.claimedAt.Some? && n.claimedAt.value <= before && n.attempt.Some?
      ensures Inv(s0) && r == Some(Marked) ==> Recovered(State(), n)
      ensures Inv(s0) ==> forall m :: Recovered(old(State()), m) ==> Recovered(State(), m)
    {
      hide Next, Run, Inv, OutboxSafety.Later, Routed;
      ghost var s := State();
      assert ([n] + todo)[0] == n && ([n] + todo)[1..] == todo;
      NextIsRecover(s, me);
      NoSteps(s);
      RunExtend(Next, s0, s, prior, [], s, Step(me, RecoverNext));
      trace := prior + [] + [Step(me, RecoverNext)];
      if n.opsCase.tenant != config.authority(me).tenant || n.opsCase.assignee != config.authority(me).operations {
        callers := callers[me := Recovering(todo, before, now)];
        return None, trace;
      }
      if n.claimedAt.None? || n.claimedAt.value > before || n.attempt.None? {
        callers := callers[me := Recovering(todo, before, now)];
        return None, trace;
      }
      callers := callers[me := Finishing(n.request, n.attempt.value, Ambiguous, None, AfterRecover(todo, before, now))];
      ghost var t, more := State(), [];
      NoSteps(t);
      KeptAlong(s0, trace);
      var mark;
      mark, more := Finish(me, n.request, n.attempt.value, Ambiguous, None, AfterRecover(todo, before, now), world, tick, t, []);
      RunAppend(Next, s0, trace, more);
      trace := trace + more;
      RecoveredAlong(t, more);
      r := Some(mark);
    }

    /** `recover_stale_claims`, over the claimed entries its query found. The number it returns is
        that of the entries it marked: each is a stale claim of this dispatcher's authority, and is
        ambiguous now. */
    method RecoverStaleClaims(me: nat, found: seq<Notification>, before: int, now: int, world: World, tick: nat,
                              ghost s0: System, ghost prior: seq<Step>)
      returns (ok: bool, recovered: nat, end: nat, ghost marked: seq<nat>, ghost trace: seq<Step>)
      requires LeavesMeAlone(me, world)
      requires At(State(), me) == Recovering(found, before, now) && State() == Run(Next, s0, prior)
      modifies this
      ensures State() == Run(Next, s0, trace)
      ensures At(State(), me) == if ok then Listing else Idle
      ensures recovered == |marked| && Rising(marked, |found|)
      ensures forall k :: 0 <= k < |marked| ==>
        var n := found[marked[k]];
        && n.opsCase.tenant == config.authority(me).tenant && n.opsCase.assignee == config.authority(me).operations
        && n.claimedAt.Some? && n.claimedAt.value <= before
      ensures Inv(s0) ==> forall k :: 0 <= k < |marked| ==> Recovered(State(), found[marked[k]])
    {
      hide Next, Run, Inv, Recovered;
      recovered, end, marked, trace := 0, tick, [], prior;
      for i := 0 to |found|
        invariant At(State(), me) == Recovering(found[i..], before, now)
        invariant State() == Run(Next, s0, trace)
        invariant recovered == |marked| && Rising(marked, i)
        invariant forall k :: 0 <= k < |marked| ==>
          var n := found[marked[k]];
          && n.opsCase.tenant == config.authority(me).tenant && n.opsCase.assignee == config.authority(me).operations
          && n.claimedAt.Some? && n.claimedAt.value <= before
        invariant Inv(s0) ==> forall k :: 0 <= k < |marked| ==> Recovered(State(), found[marked[k]])
      {
        assert found[i..] == [found[i]] + found[i + 1..];
        var mark;
        mark, trace := RecoverOne(me, found[i], found[i + 1..], before, now, world, end, s0, trace);
        end := end + 2;
        if mark == Some(ErrorRaised) {
          return false, recovered, end, marked, trace;
        }
        if mark == Some(Marked) {
          recovered, marked := recovered + 1, marked + [i];
        }
      }
      ghost var s := State();
      assert found[|found|..] == [];
      NextIsRecover(s, me);
      NoSteps(s);
      RunExtend(Next, s0, s, trace, [], s, Step(me, RecoverNext));
      trace := trace + [] + [Step(me, RecoverNext)];
      RecoveredSame(s, me);
      callers := callers[me := Listing];
      ok := true;
    }

    /** One claimed entry: checked against the held record, sent, and marked. False where an
        exception leaves the round. */
    method Deliver(me: nat, n: Notification, todo: seq<Notification>, world: World, tick: nat, ghost s0: System, ghost prior: seq<Step>)
      returns (ok: bool, ghost trace: seq<Step>)
      requires LeavesMeAlone(me, world) && n.attempt.Some?
      requires At(State(), me) == Owning(n, todo) && State() == Run(Next, s0, prior)
      modifies this
      ensures State() == Run(Next, s0, trace)
      ensures At(State(), me) == if ok then Dispatching(todo) else Idle
    {
      hide Next, Run;
      ghost var s1 := State();
      Await(me, world(tick).others);
      ghost var s2 := State();
      NextIsSend(s2, me, None);
      RunExtend(Next, s0, s1, prior, world(tick).others, s2, Step(me, Check));
      trace := prior + world(tick).others + [Step(me, Check)];
      var attempt := n.attempt.value;
      var mark;
      if n.opsCase.tenant != config.authority(me).tenant || n.opsCase.assignee != config.authority(me).operations
         || n.request !in cases || cases[n.request] != n.opsCase {
        callers := callers[me := Finishing(n.request, attempt, Ambiguous, None, AfterAmbiguous(todo))];
      } else {
        callers := callers[me := Sending(n, todo)];
        var receipt;
        receipt, trace := Notify(me, n, todo, world, tick + 1, s0, trace);
        if receipt.Some? {
          mark, trace := Finish(me, n.request, attempt, Delivered, receipt, AfterDelivery(n, todo), world, tick + 3, s0, trace);
          if mark.Marked? {
            return true, trace;
          }
        }
      }
      mark, trace := Finish(me, n.request, attempt, Ambiguous, None, AfterAmbiguous(todo), world, tick + 5, s0, trace);
      ok := !mark.ErrorRaised?;
    }

    /** The external call; a blank receipt, an exception and the timeout are all no receipt. */
    method Notify(me: nat, n: Notification, todo: seq<Notification>, world: World, tick: nat, ghost s0: System, ghost prior: seq<Step>)
      returns (receipt: Option<nat>, ghost trace: seq<Step>)
      requires LeavesMeAlone(me, world) && n.attempt.Some?
      requires At(State(), me) == Sending(n, todo) && State() == Run(Next, s0, prior)
      modifies this
      ensures State() == Run(Next, s0, trace)
      ensures At(State(), me) ==
        if receipt.Some? then Finishing(n.request, n.attempt.value, Delivered, receipt, AfterDelivery(n, todo))
        else Finishing(n.request, n.attempt.value, Ambiguous, None, AfterAmbiguous(todo))
    {
      hide Next, Run;
      ghost var s1 := State();
      NextIsSend(s1, me, None);
      NoSteps(s1);
      RunExtend(Next, s0, s1, prior, [], s1, Step(me, Send));
      trace := prior + [] + [Step(me, Send)];
      calls := calls + [Call(me, n.request, n.opsCase.caseId, n.attempt.value)];
      callers := callers[me := InFlight(n, todo)];
      ghost var s2 := State();
      Await(me, world(tick).others);
      ghost var s3 := State();
      receipt := world(tick).receipt;
      NextIsSend(s3, me, receipt);
      RunExtend(Next, s0, s2, trace, world(tick).others, s3, Step(me, Reply(receipt)));
      trace := trace + world(tick).others + [Step(me, Reply(receipt))];
      if receipt.Some? && receipt.value != BLANK {
        answers := answers + [Answer(n.request, n.attempt.value, receipt.value)];
        callers := callers[me := Finishing(n.request, n.attempt.value, Delivered, receipt, AfterDelivery(n, todo))];
      } else {
        receipt := None;
        callers := callers[me := Finishing(n.request, n.attempt.value, Ambiguous, None, AfterAmbiguous(todo))];
      }
    }

    /** `dispatch_once`: recover, then claim and deliver each pending entry in turn. */
    method DispatchOnce(me: nat, stale: Query, pending: Query, world: World) returns (ok: bool, ghost trace: seq<Step>)
      requires LeavesMeAlone(me, world) && At(State(), me) == Idle && Asks(stale, Claimed) && Asks(pending, Pending)
      modifies this
      ensures State() == Run(Next, old(State()), trace)
      ensures At(State(), me) == Idle
      ensures old(Inv(State())) ==> Inv(State()) && OutboxSafety.Later(old(State()), State())
      ensures old(Inv(State()) && Routed(State())) ==> Routed(State())
      ensures old(Inv(State()) && Routed(State())) ==> forall i :: 0 <= i < |calls| ==>
        && calls[i].request in cases && calls[i].caseId == cases[calls[i].request].caseId
        && cases[calls[i].request].tenant == config.authority(calls[i].caller).tenant
        && cases[calls[i].request].assignee == config.authority(calls[i].caller).operations
    {
      hide Next, Run, Inv, OutboxSafety.Later, Found, RouteOk;
      ghost var s0 := State();
      var now, found := world(0).now, stale(State());
      NextIsStart(s0, me, now, found);
      NoSteps(s0);
      RunExtend(Next, s0, s0, [], [], s0, Step(me, Start(now, found)));
      trace := [] + [] + [Step(me, Start(now, found))];
      callers := callers[me := Recovering(found, now - STALE_AFTER, now)];
      var recovered, tick;
      ghost var marked;
      ok, recovered, tick, marked, trace := RecoverStaleClaims(me, found, now - STALE_AFTER, now, world, 1, s0, trace);
      if ok {
        ghost var s := State();
        var waiting := pending(State());
        NextIsList(s, me, waiting);
        NoSteps(s);
        RunExtend(Next, s0, s, trace, [], s, Step(me, List(waiting)));
        trace := trace + [] + [Step(me, List(waiting))];
        callers := callers[me := Dispatching(waiting)];
        ok, trace := DispatchAll(me, waiting, world, tick, s0, trace);
      }
      KeptAlong(s0, trace);
    }

    method DispatchAll(me: nat, pending: seq<Notification>, world: World, tick: nat, ghost s0: System, ghost prior: seq<Step>)
      returns (ok: bool, ghost trace: seq<Step>)
      requires LeavesMeAlone(me, world)
      requires At(State(), me) == Dispatching(pending) && State() == Run(Next, s0, prior)
      modifies this
      ensures State() == Run(Next, s0, trace)
      ensures At(State(), me) == Idle
    {
      hide Next, Run;
      var clock := tick;
      trace := prior;
      for i := 0 to |pending|
        invariant At(State(), me) == Dispatching(pending[i..])
        invariant State() == Run(Next, s0, trace)
      {
        assert pending[i..][0] == pending[i] && pending[i..][1..] == pending[i + 1..];
        var n, todo := pending[i], pending[i + 1..];
        ghost var s := State();
        NextIsDispatch(s, me);
        NoSteps(s);
        RunExtend(Next, s0, s, trace, [], s, Step(me, DispatchNext));
        trace := trace + [] + [Step(me, DispatchNext)];
        if n.opsCase.tenant != config.authority(me).tenant || n.opsCase.assignee != config.authority(me).operations {
          callers := callers[me := Dispatching(todo)];
          continue;
        }
        callers := callers[me := Claiming(n.request, todo)];
        ghost var more, t := [], State();
        var claimed;
        claimed, more := Claim(me, n.request, todo, world, clock);
        RunAppend(Next, s0, trace, more);
        trace, clock := trace + more, clock + 2;
        if claimed.Err? {
          return false, trace;
        }
        if claimed.value.Some? {
          var delivered;
          delivered, trace := Deliver(me, claimed.value.value, todo, world, clock, s0, trace);
          clock := clock + 7;
          if !delivered {
            return false, trace;
          }
        }
      }
      assert pending[|pending|..] == [];
      ghost var s := State();
      NextIsDispatch(s, me);
      NoSteps(s);
      RunExtend(Next, s0, s, trace, [], s, Step(me, DispatchNext));
      trace := trace + [] + [Step(me, DispatchNext)];
      callers := callers[me := Idle];
      ok := true;
    }
  }

  lemma TransitionStores(docs: Partition<DocId, Doc>, n: Notification, etag: nat)
    requires n.attempt.Some? && Admits(docs, TransitionWrites(n, etag))
    ensures var after := Batch(docs, TransitionWrites(n, etag)).docs; BoxId(n.request) in after && after[BoxId(n.request)].body == BoxDoc(n)
  {
    BatchContents(docs, TransitionWrites(n, etag));
    assert BoxId(n.request) in TransitionWrites(n, etag);
  }

  /** An entry is filed under its own request. */
  lemma KeyedAlong(s0: System, before: seq<Step>, s1: System, others: seq<Step>, s2: System, request: nat)
    requires s1 == Run(Next, s0, before) && s2 == Run(Next, s1, others) && HasBox(s2, request)
    ensures Inv(s0) ==> Box(s2, request).request == request
  {
    hide Inv, Next, Run;
    KeptAlong(s0, before);
    KeptAlong(s1, others);
    if Inv(s0) {
      BoxFacts(s2, request);
    }
  }

  /** The claim was marked ambiguous under its own attempt. */
  ghost predicate Recovered(s: System, n: Notification) {
    HasBox(s, n.request) && Box(s, n.request).state.Ambiguous? && Box(s, n.request).attempt == n.attempt
  }

  lemma RecoveredAlong(s: System, steps: seq<Step>)
    ensures Inv(s) ==> forall n :: Recovered(s, n) ==> Recovered(Run(Next, s, steps), n)
  {
    hide Inv, Next, Run;
    KeptAlong(s, steps);
  }

  lemma RecoveredSame(s: System, w: nat)
    ensures forall p: Position, n :: Recovered(s, n) ==> Recovered(Goto(s, w, p), n)
  {
  }

  predicate Rising(indices: seq<nat>, limit: nat) {
    && (forall k :: 0 <= k < |indices| ==> indices[k] < limit)
    && (forall j, k :: 0 <= j < k < |indices| ==> indices[j] < indices[k])
  }

  lemma KeptAlong(s: System, steps: seq<Step>)
    ensures Inv(s) ==> Inv(Run(Next, s, steps)) && OutboxSafety.Later(s, Run(Next, s, steps))
    ensures Inv(s) && Routed(s) ==> Routed(Run(Next, s, steps))
  {
    if Inv(s) {
      HistoryOnlyGrows(s, steps);
    }
    if Inv(s) && Routed(s) {
      RoutedAlong(s, steps);
    }
  }
}
