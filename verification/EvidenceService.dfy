/** The broker's methods as the loops they are. Other callers run wherever the store, or the
    evidence source, is awaited; what they do there is a parameter. Each method is one caller's
    part of a run of the machine, so everything proved about all runs holds while it executes. */
module EvidenceService {
  import opened Results
  import opened DocumentStore
  import opened EvidenceBroker
  import opened EvidenceSafety
  import opened Traces
  import History = EvidenceHistory
  import Toolbox = EvidenceToolbox

  /** What the other callers do at each point where this caller waits. */
  type Interference = nat -> seq<Step>

  ghost predicate LeavesMeAlone(me: nat, env: Interference) {
    forall n: nat, i :: 0 <= i < |env(n)| ==> env(n)[i].caller != me
  }

  // ---------------------------------------------------------------- the steps, one at a time

  lemma {:induction false} OthersLeaveMe(s: Broker, me: nat, steps: seq<Step>)
    requires forall i :: 0 <= i < |steps| ==> steps[i].caller != me
    ensures var t := Run(Next, s, steps); At(t, me) == At(s, me) && t.binding == s.binding && t.handles == s.handles
  {
    hide Next;
    if steps != [] {
      OthersLeaveMe(s, me, steps[..|steps| - 1]);
      Toolbox.OnlyItsCaller(Run(Next, s, steps[..|steps| - 1]), steps[|steps| - 1]);
    }
  }

  lemma CallSteps(s: Broker, w: nat, tenant: nat, principal: nat, handle: nat, request: Request, now: int, payload: Option<nat>, id: nat)
    ensures At(s, w).Idle? ==>
      Next(s, Step(w, CallLoad(tenant, principal, handle, request, now))) == NextCall(s, w, tenant, principal, handle, request, now)
    ensures At(s, w).Reserved? ==> Next(s, Step(w, CallConfirm)) == NextConfirm(s, w, At(s, w))
    ensures At(s, w).Reading? ==> Next(s, Step(w, CallRead(payload, now, id))) == NextRead(s, w, At(s, w), payload, now, id)
    ensures At(s, w).Answered? ==> Next(s, Step(w, Return)) == Goto(s, w, Idle)
  {
    hide NextCall, NextConfirm, NextRead;
  }

  lemma FailSteps(s: Broker, w: nat, claimed: Binding)
    ensures At(s, w).FailLoading? ==> Next(s, Step(w, FailLoad)) == NextFailLoad(s, w, At(s, w))
    ensures Next(s, Step(w, AbortLoad(claimed))) == NextAbort(s, w, At(s, w), claimed)
  {
    hide NextFailLoad, NextAbort;
  }

  lemma InvAlong(s: Broker, steps: seq<Step>)
    requires Inv(s)
    ensures Inv(Run(Next, s, steps)) && History.Later(s, Run(Next, s, steps))
  {
    History.HistoryOnlyGrows(s, steps);
  }

  lemma Extend(s: Broker, t: Broker, steps: seq<Step>, u: Broker, more: seq<Step>)
    requires t == Run(Next, s, steps) && u == Run(Next, t, more)
    ensures u == Run(Next, s, steps + more)
  {
    RunAppend(Next, s, steps, more);
  }

  lemma ScopeKnowsItsRole(s: Broker, role: Role)
    requires Inv(s) && HasScope(s.docs, role)
    ensures ScopeOf(s.docs, role).role == role && InPack(s.binding, role)
    ensures ScopeOf(s.docs, role).binding == s.binding && role in s.handles && ScopeOf(s.docs, role).handle == s.handles[role]
  {
    assert ScopeOk(s, role);
  }

  lemma RewrittenScope(p: Evidence, scope: Scope, tag: nat)
    requires Admits(p, Rewrite(scope, tag))
    ensures var q := Batch(p, Rewrite(scope, tag)); HasScope(q, scope.role) && ScopeOf(q, scope.role) == scope
  {
    BatchContents(p, Rewrite(scope, tag));
    assert ScopeId(scope.role) in Rewrite(scope, tag);
  }

  lemma RolesOfScopes(s: Broker, role: Role)
    requires Inv(s)
    ensures HasScope(s.docs, role) <==> InPack(s.binding, role)
    ensures HasScope(s.docs, role) ==> ScopeOf(s.docs, role).binding == s.binding
    ensures HasScope(s.docs, role) ==> role in s.handles && ScopeOf(s.docs, role).handle == s.handles[role]
    ensures HasScope(s.docs, role) && ScopeOf(s.docs, role).state.Open? ==>
      ScopeOf(s.docs, role).calls == |ScopeOf(s.docs, role).receipts|
  {
    if HasScope(s.docs, role) {
      assert ScopeOk(s, role);
    }
  }

  lemma FinishStarts(s: Broker, w: nat, ids: map<Role, seq<nat>>, now: int)
    requires At(s, w).Idle? && ids.Keys == {FirstRole(s.binding.pack), SecondRole(s.binding.pack)} && now < s.binding.expiresAt
    ensures Next(s, Step(w, FinishLoad(s.binding, ids, now))) == Goto(s, w, Finishing(ids, now))
  {
  }

  lemma FinishMoves(s: Broker, w: nat, acked: bool)
    ensures At(s, w).Finishing? ==> Next(s, Step(w, FinishFirst)) == NextFinishFirst(s, w, At(s, w))
    ensures At(s, w).FinishingSecond? ==> Next(s, Step(w, FinishSecond)) == NextFinishSecond(s, w, At(s, w))
    ensures At(s, w).Closing? ==> Next(s, Step(w, FinishStore(acked))) == NextClose(s, w, At(s, w), acked)
  {
    hide NextFinishFirst, NextFinishSecond, NextClose;
  }

  // ---------------------------------------------------------------- what the methods promise

  lemma Unadmitted(p: Evidence, writes: Writes<DocId, Doc>)
    ensures !Admits(p, writes) ==> Batch(p, writes) == p
  {
  }

  /** Where `_fail` leaves its caller: with the second scope to revoke, or with an answer. */
  function Settling(next: Option<Role>, revoking: bool): Position {
    if revoking && next.Some? then Revoking(next.value, None) else Answered(None)
  }

  /** Whatever raised, the scope is to be failed. */
  function Abandoned(request: Request): Position {
    FailLoading(request.role, FAIL_ATTEMPTS, None, false)
  }

  /** The scope can take no more evidence. */
  predicate Gone(docs: Evidence, role: Role) {
    HasScope(docs, role) && (ScopeOf(docs, role).state.Failed? || ScopeOf(docs, role).state.Closed?)
  }

  lemma GoneStays(s: Broker, t: Broker, role: Role)
    requires InPack(s.binding, role) && Gone(s.docs, role) && History.Later(s, t)
    ensures Gone(t.docs, role)
  {
    assert History.ScopeLater(s, t, role);
  }

  /** The receipt is the newest of its scope, which is open again. */
  predicate Stored(docs: Evidence, r: Receipt) {
    && HasScope(docs, r.role) && HasReceipt(docs, r.id) && ReceiptOf(docs, r.id) == r
    && var scope := ScopeOf(docs, r.role);
    scope.state.Open? && scope.receipts != [] && scope.receipts[|scope.receipts| - 1] == r.id
  }

  lemma FiledIsStored(p: Evidence, held: Scope, tag: nat, r: Receipt)
    requires r.role == held.role && Admits(p, ReceiptWrites(held, tag, r))
    ensures Stored(Batch(p, ReceiptWrites(held, tag, r)), r)
  {
    var writes := ReceiptWrites(held, tag, r);
    BatchContents(p, writes);
    assert ScopeId(held.role) in writes && ReceiptId(r.id) in writes;
  }

  /** The caller proved who it is: tenant, principal and handle. */
  predicate Authentic(docs: Evidence, tenant: nat, principal: nat, handle: nat, role: Role) {
    && HasScope(docs, role)
    && var scope := ScopeOf(docs, role);
    scope.binding.tenant == tenant && scope.binding.principal == principal && scope.handle == handle
  }

  predicate Usable(docs: Evidence, request: Request, now: int) {
    && HasScope(docs, request.role)
    && var scope := ScopeOf(docs, request.role);
    && scope.state.Open? && now < scope.binding.expiresAt && scope.calls < CALL_BUDGET
    && request.tool in Allowed(request.role) && ArgumentsFit(request.tool, request.args, scope.binding.documents)
  }

  /** `Denied` is refused before anything is known about the caller; `Stopped` went through
      `_fail`, which settled the scope or could not. */
  datatype Outcome = Returned(receipt: Receipt) | Denied | Stopped(settled: bool)

  /** Both scopes closed, holding exactly these receipts. */
  ghost predicate ClosedWith(s: Broker, found: seq<Receipt>) {
    var r1, r2 := FirstRole(s.binding.pack), SecondRole(s.binding.pack);
    && HasScope(s.docs, r1) && ScopeOf(s.docs, r1).state.Closed? && AllHeld(s.docs, ScopeOf(s.docs, r1).receipts)
    && HasScope(s.docs, r2) && ScopeOf(s.docs, r2).state.Closed? && AllHeld(s.docs, ScopeOf(s.docs, r2).receipts)
    && found == ReadReceipts(s.docs, ScopeOf(s.docs, r1).receipts) + ReadReceipts(s.docs, ScopeOf(s.docs, r2).receipts)
  }

  lemma FinishedClosed(s: Broker, found: seq<Receipt>)
    requires Inv(s) && s.finished != [] && s.finished[|s.finished| - 1] == found
    ensures s.finished == [found] && ClosedWith(s, found)
  {
    hide Scopes, ReceiptsOk, OneOwner, PositionOk, CompleteRole;
  }

  /** What may not hold of a prefix may not hold of the whole list. */
  lemma PrefixReads(p: Evidence, ids: seq<nat>, i: nat)
    requires i < |ids| && AllHeld(p, ids[..i])
    ensures AllHeld(p, ids) ==> HasReceipt(p, ids[i]) && ReceiptOf(p, ids[i]) in ReadReceipts(p, ids)
    ensures HasReceipt(p, ids[i]) ==>
      AllHeld(p, ids[..i + 1]) && ReadReceipts(p, ids[..i + 1]) == ReadReceipts(p, ids[..i]) + [ReceiptOf(p, ids[i])]
  {
    if AllHeld(p, ids) {
      assert ReadReceipts(p, ids)[i] == ReceiptOf(p, ids[i]);
    }
    if HasReceipt(p, ids[i]) {
      assert forall k :: 0 <= k < i ==> ids[..i + 1][k] == ids[..i][k];
      assert ids[..i + 1][..i] == ids[..i];
    }
  }

  // ---------------------------------------------------------------- the service

  class Service {
    const binding: Binding
    const handles: map<Role, nat>
    var docs: Evidence
    var callers: map<nat, Position>
    var finished: seq<seq<Receipt>>

    /** `issue`: both scopes in one batch. */
    constructor (binding: Binding, first: nat, second: nat)
      ensures State() == Issue(binding, first, second) && Valid()
    {
      IssueOk(binding, first, second);
      var r1, r2 := FirstRole(binding.pack), SecondRole(binding.pack);
      this.binding, handles := binding, map[r1 := first, r2 := second];
      docs := Batch(Partition(map[], 0), map[
        ScopeId(r1) := Create(ScopeDoc(NewScope(r1, binding, first))),
        ScopeId(r2) := Create(ScopeDoc(NewScope(r2, binding, second)))]);
      callers, finished := map[], [];
    }

    function State(): Broker
      reads this
    {
      Broker(binding, handles, docs, callers, finished)
    }

    ghost predicate Valid()
      reads this
    {
      Inv(State())
    }

    /** The other callers run; this one stays where it is. */
    method Await(me: nat, others: seq<Step>)
      requires forall i :: 0 <= i < |others| ==> others[i].caller != me
      modifies this
      ensures State() == Run(Next, old(State()), others)
      ensures At(State(), me) == old(At(State(), me))
    {
      OthersLeaveMe(State(), me, others);
      var s := Run(Next, State(), others);
      docs, callers, finished := s.docs, s.callers, s.finished;
    }

    // -------------------------------------------------------------- _fail

    /** The write half of an attempt: None is a lost race, Some whether it was acknowledged. */
    method MarkFailed(me: nat, tries: nat, next: Option<Role>, revoking: bool, record: Scope, tag: nat, acked: bool,
                      env: Interference, clock: nat)
      returns (r: Option<bool>, ghost trace: seq<Step>)
      requires LeavesMeAlone(me, env) && Valid() && tries > 0
      requires At(State(), me) == FailStoring(record.role, tries, next, revoking, record, tag)
      modifies this
      ensures State() == Run(Next, old(State()), trace) && Valid()
      ensures r == Some(true) ==> Gone(docs, record.role) && At(State(), me) == Settling(next, revoking)
      ensures r == Some(false) ==> At(State(), me) == Answered(None)
      ensures r.None? ==> At(State(), me) == FailLoading(record.role, tries - 1, next, revoking)
    {
      hide Inv, Next, Run, Admits, Batch, Rewrite;
      ghost var s0 := State();
      Toolbox.NoSteps(s0);
      Await(me, env(clock));
      ghost var s1 := State();
      Toolbox.NextIsStore(s1, Step(me, FailStore(acked)));
      RunExtend(Next, s0, s0, [], env(clock), s1, Step(me, FailStore(acked)));
      trace := [] + env(clock) + [Step(me, FailStore(acked))];
      InvAlong(s0, trace);
      var writes := Rewrite(record.(state := Failed), tag);
      if Admits(docs, writes) {
        RewrittenScope(docs, record.(state := Failed), tag);
        docs := Batch(docs, writes);
        callers := callers[me := if acked then Settling(next, revoking) else Answered(None)];
        r := Some(acked);
      } else {
        callers := callers[me := FailLoading(record.role, tries - 1, next, revoking)];
        r := None;
      }
    }

    /** One attempt: None is a lost race, Some whether the scope is settled. */
    method FailOnce(me: nat, role: Role, tries: nat, next: Option<Role>, revoking: bool, acked: bool, env: Interference, clock: nat)
      returns (r: Option<bool>, ghost trace: seq<Step>)
      requires LeavesMeAlone(me, env) && Valid() && tries > 0
      requires At(State(), me) == FailLoading(role, tries, next, revoking)
      modifies this
      ensures State() == Run(Next, old(State()), trace) && Valid()
      ensures r == Some(true) ==> Gone(docs, role) && At(State(), me) == Settling(next, revoking)
      ensures r == Some(false) ==> At(State(), me) == Answered(None)
      ensures r.None? ==> At(State(), me) == FailLoading(role, tries - 1, next, revoking)
    {
      hide Inv, Next, Run, Admits, Batch, Rewrite;
      ghost var s0 := State();
      Toolbox.NoSteps(s0);
      Await(me, env(clock));
      ghost var s1 := State();
      InvAlong(s0, env(clock));
      FailSteps(s1, me, binding);
      RunExtend(Next, s0, s0, [], env(clock), s1, Step(me, FailLoad));
      trace := [] + env(clock) + [Step(me, FailLoad)];
      InvAlong(s0, trace);
      if !HasScope(docs, role) {
        callers := callers[me := Answered(None)];
        return Some(false), trace;
      }
      var record := ScopeOf(docs, role);
      if record.state.Failed? || record.state.Closed? {
        callers := callers[me := Settling(next, revoking)];
        return Some(true), trace;
      }
      ScopeKnowsItsRole(s1, role);
      callers := callers[me := FailStoring(role, tries, next, revoking, record, TagOf(docs, role))];
      ghost var more, t := [], State();
      r, more := MarkFailed(me, tries, next, revoking, record, TagOf(docs, role), acked, env, clock + 1);
      Extend(s0, t, trace, State(), more);
      trace := trace + more;
    }

    /** `_fail`: three attempts at the metadata, never at the evidence. */
    method Fail(me: nat, role: Role, next: Option<Role>, revoking: bool, acks: nat -> bool, env: Interference, clock: nat)
      returns (settled: bool, tick: nat, ghost trace: seq<Step>)
      requires LeavesMeAlone(me, env) && Valid()
      requires At(State(), me) == FailLoading(role, FAIL_ATTEMPTS, next, revoking)
      modifies this
      ensures State() == Run(Next, old(State()), trace) && Valid()
      ensures settled ==> Gone(docs, role)
      ensures At(State(), me) == if settled then Settling(next, revoking) else Answered(None)
    {
      hide Inv, Next, Run, Gone;
      ghost var s0 := State();
      Toolbox.NoSteps(s0);
      tick, trace := clock, [];
      for attempt := 0 to FAIL_ATTEMPTS
        invariant Valid() && State() == Run(Next, s0, trace)
        invariant At(State(), me) == FailLoading(role, FAIL_ATTEMPTS - attempt, next, revoking)
      {
        ghost var t, more := State(), [];
        var r;
        r, more := FailOnce(me, role, FAIL_ATTEMPTS - attempt, next, revoking, acks(attempt), env, tick);
        Extend(s0, t, trace, State(), more);
        trace, tick := trace + more, tick + 2;
        if r.Some? {
          return r.value, tick, trace;
        }
      }
      FailSteps(State(), me, binding);
      Toolbox.NoSteps(State());
      RunExtend(Next, s0, State(), trace, [], State(), Step(me, FailLoad));
      trace := trace + [] + [Step(me, FailLoad)];
      InvAlong(s0, trace);
      callers := callers[me := Answered(None)];
      settled := false;
    }

    // -------------------------------------------------------------- call

    /** The reservation: taken and read back, or None where anything raised. */
    method Reserve(me: nat, request: Request, snap: Scope, tag: nat, acked: bool, env: Interference)
      returns (r: Option<(Scope, nat)>, ghost trace: seq<Step>)
      requires LeavesMeAlone(me, env) && Valid()
      requires At(State(), me) == Reserving(request, snap, tag)
      modifies this
      ensures State() == Run(Next, old(State()), trace) && Valid()
      ensures r.Some? ==> At(State(), me) == Reading(request, r.value.0, r.value.1) && r.value.0.role == request.role && r.value.0.binding == binding
      ensures r.None? ==> At(State(), me) == Abandoned(request)
    {
      hide Inv, Next, Run, Admits, Batch, Rewrite;
      ghost var s0 := State();
      Toolbox.NoSteps(s0);
      Await(me, env(0));
      ghost var s1 := State();
      Toolbox.NextIsStore(s1, Step(me, CallReserve(acked)));
      RunExtend(Next, s0, s0, [], env(0), s1, Step(me, CallReserve(acked)));
      trace := [] + env(0) + [Step(me, CallReserve(acked))];
      InvAlong(s0, trace);
      var writes := Rewrite(snap.(state := Calling, calls := snap.calls + 1), tag);
      var taken := Admits(docs, writes);
      docs := Batch(docs, writes);
      Unadmitted(s1.docs, writes);
      if !taken || !acked {
        callers := callers[me := Abandoned(request)];
        return None, trace;
      }
      callers := callers[me := Reserved(request)];
      ghost var s2 := State();
      Await(me, env(1));
      ghost var s3 := State();
      InvAlong(s2, env(1));
      CallSteps(s3, me, 0, 0, 0, request, 0, None, 0);
      RunExtend(Next, s0, s2, trace, env(1), s3, Step(me, CallConfirm));
      trace := trace + env(1) + [Step(me, CallConfirm)];
      InvAlong(s0, trace);
      if !HasScope(docs, request.role) || !ScopeOf(docs, request.role).state.Calling? {
        callers := callers[me := Abandoned(request)];
        return None, trace;
      }
      ScopeKnowsItsRole(s3, request.role);
      callers := callers[me := Reading(request, ScopeOf(docs, request.role), TagOf(docs, request.role))];
      r := Some((ScopeOf(docs, request.role), TagOf(docs, request.role)));
    }

    /** The evidence is read, and its receipt stored while the scope reopens. */
    method Record(me: nat, request: Request, held: Scope, tag: nat, payload: Option<nat>, now: int, id: nat, acked: bool, env: Interference)
      returns (r: Option<Receipt>, ghost trace: seq<Step>)
      requires LeavesMeAlone(me, env) && Valid() && held.role == request.role && held.binding == binding
      requires At(State(), me) == Reading(request, held, tag)
      modifies this
      ensures State() == Run(Next, old(State()), trace) && Valid()
      ensures r.Some? ==> At(State(), me) == Answered(r) && Stored(docs, r.value) && now < binding.expiresAt && payload.Some?
      ensures r.Some? ==> r.value == Receipt(id, request.role, request.tool, request.args, binding.source, payload.value, now)
      ensures r.None? ==> At(State(), me) == Abandoned(request)
    {
      hide Inv, Next, Run, Admits, Batch, ReceiptWrites, Stored;
      ghost var s0 := State();
      Toolbox.NoSteps(s0);
      Await(me, env(2));
      ghost var s1 := State();
      CallSteps(s1, me, 0, 0, 0, request, now, payload, id);
      RunExtend(Next, s0, s0, [], env(2), s1, Step(me, CallRead(payload, now, id)));
      trace := [] + env(2) + [Step(me, CallRead(payload, now, id))];
      InvAlong(s0, trace);
      if payload.None? || now >= held.binding.expiresAt {
        callers := callers[me := Abandoned(request)];
        return None, trace;
      }
      var receipt := Receipt(id, request.role, request.tool, request.args, held.binding.source, payload.value, now);
      callers := callers[me := Storing(request, held, tag, receipt)];
      ghost var s2 := State();
      Await(me, env(3));
      ghost var s3 := State();
      Toolbox.NextIsStore(s3, Step(me, CallStore(acked)));
      RunExtend(Next, s0, s2, trace, env(3), s3, Step(me, CallStore(acked)));
      trace := trace + env(3) + [Step(me, CallStore(acked))];
      InvAlong(s0, trace);
      var writes := ReceiptWrites(held, tag, receipt);
      var filed := Admits(docs, writes);
      docs := Batch(docs, writes);
      Unadmitted(s3.docs, writes);
      if filed && acked {
        FiledIsStored(s3.docs, held, tag, receipt);
        callers := callers[me := Answered(Some(receipt))];
        r := Some(receipt);
      } else {
        callers := callers[me := Abandoned(request)];
        r := None;
      }
    }

    /** `call`: who asks, what may be asked, and the reserved call itself. Whatever raises after
        the caller has proved who it is fails the scope. */
    method Call(me: nat, tenant: nat, principal: nat, handle: nat, request: Request, now: int,
                payload: Option<nat>, readAt: int, id: nat, reserveAck: bool, storeAck: bool, acks: nat -> bool, env: Interference)
      returns (r: Outcome, ghost trace: seq<Step>)
      requires LeavesMeAlone(me, env) && Valid() && At(State(), me) == Idle
      modifies this
      ensures State() == Run(Next, old(State()), trace) && Valid() && At(State(), me) == Idle
      ensures r.Denied? <==>
        !(InPack(binding, request.role) && tenant == binding.tenant && principal == binding.principal
          && request.role in handles && handle == handles[request.role])
      ensures r.Denied? ==> docs == old(docs) && finished == old(finished)
      ensures r.Returned? ==>
        HasScope(old(docs), request.role) && ScopeOf(old(docs), request.role).state.Open? && |ScopeOf(old(docs), request.role).receipts| < 6
      ensures r.Returned? ==>
        now < binding.expiresAt && readAt < binding.expiresAt && request.tool in Allowed(request.role)
        && ArgumentsFit(request.tool, request.args, binding.documents)
      ensures r.Returned? ==> Stored(docs, r.receipt) && payload.Some?
      ensures r.Returned? ==> r.receipt == Receipt(id, request.role, request.tool, request.args, binding.source, payload.value, readAt)
      ensures r.Stopped? && r.settled ==> Gone(docs, request.role)
    {
      hide Inv, Next, Run, Stored, ArgumentsFit, Allowed;
      ghost var s0 := State();
      RolesOfScopes(s0, request.role);
      Toolbox.NoSteps(s0);
      CallSteps(s0, me, tenant, principal, handle, request, now, payload, id);
      RunExtend(Next, s0, s0, [], [], s0, Step(me, CallLoad(tenant, principal, handle, request, now)));
      trace := [] + [] + [Step(me, CallLoad(tenant, principal, handle, request, now))];
      InvAlong(s0, trace);
      if !Authentic(docs, tenant, principal, handle, request.role) {
        callers := callers[me := Answered(None)];
        r := Denied;
        trace := LetGo(me, s0, trace);
        return;
      }
      var record, tag := ScopeOf(docs, request.role), TagOf(docs, request.role);
      var receipt: Option<Receipt> := None;
      if !Usable(docs, request, now) {
        callers := callers[me := Abandoned(request)];
      } else {
        callers := callers[me := Reserving(request, record, tag)];
        ghost var t, more := State(), [];
        var held;
        held, more := Reserve(me, request, record, tag, reserveAck, env);
        Extend(s0, t, trace, State(), more);
        trace := trace + more;
        if held.Some? {
          t := State();
          receipt, more := Record(me, request, held.value.0, held.value.1, payload, readAt, id, storeAck, env);
          Extend(s0, t, trace, State(), more);
          trace := trace + more;
        }
      }
      if receipt.Some? {
        r := Returned(receipt.value);
      } else {
        ghost var t, more := State(), [];
        var settled, tick;
        settled, tick, more := Fail(me, request.role, None, false, acks, env, 4);
        Extend(s0, t, trace, State(), more);
        trace := trace + more;
        r := Stopped(settled);
      }
      trace := LetGo(me, s0, trace);
    }

    /** The caller goes back with its answer. */
    method LetGo(me: nat, ghost s0: Broker, ghost trace: seq<Step>) returns (ghost whole: seq<Step>)
      requires Valid() && At(State(), me).Answered? && State() == Run(Next, s0, trace) && Inv(s0)
      modifies this`callers
      ensures State() == Run(Next, s0, whole) && Valid() && At(State(), me) == Idle
    {
      hide Inv, Next, Run;
      CallSteps(State(), me, 0, 0, 0, Request(DocumentAnalyst, AnalyzeDocument, Nothing), 0, None, 0);
      Toolbox.NoSteps(State());
      RunExtend(Next, s0, State(), trace, [], State(), Step(me, Return));
      whole := trace + [] + [Step(me, Return)];
      InvAlong(s0, whole);
      callers := callers[me := Idle];
    }

    // -------------------------------------------------------------- abort

    /** One scope of `abort`: its binding is compared, and it is failed. */
    method Revoke(me: nat, role: Role, next: Option<Role>, claimed: Binding, acks: nat -> bool, env: Interference, clock: nat)
      returns (revoked: bool, tick: nat, ghost trace: seq<Step>)
      requires LeavesMeAlone(me, env) && Valid() && At(State(), me) == Revoking(role, next)
      modifies this
      ensures State() == Run(Next, old(State()), trace) && Valid()
      ensures revoked ==> claimed == binding && Gone(docs, role)
      ensures At(State(), me) == if revoked then Settling(next, true) else Answered(None)
    {
      hide Inv, Next, Run, Gone;
      ghost var s0 := State();
      Toolbox.NoSteps(s0);
      FailSteps(s0, me, claimed);
      RunExtend(Next, s0, s0, [], [], s0, Step(me, AbortLoad(claimed)));
      trace, tick := [] + [] + [Step(me, AbortLoad(claimed))], clock;
      InvAlong(s0, trace);
      if claimed != binding {
        callers := callers[me := Answered(None)];
        revoked := false;
      } else {
        callers := callers[me := FailLoading(role, FAIL_ATTEMPTS, next, true)];
        ghost var t, more := State(), [];
        revoked, tick, more := Fail(me, role, next, true, acks, env, clock);
        Extend(s0, t, trace, State(), more);
        trace := trace + more;
      }
    }

    /** `abort`: both scopes of the investigation are failed, the first before the second. What
        returns has revoked every outstanding reservation. */
    method Abort(me: nat, claimed: Binding, acks: nat -> bool, acksSecond: nat -> bool, env: Interference)
      returns (revoked: bool, ghost trace: seq<Step>)
      requires LeavesMeAlone(me, env) && Valid() && At(State(), me) == Idle
      modifies this
      ensures State() == Run(Next, old(State()), trace) && Valid() && At(State(), me) == Idle
      ensures revoked ==> claimed == binding
      ensures revoked ==> Gone(docs, FirstRole(binding.pack)) && Gone(docs, SecondRole(binding.pack))
    {
      hide Inv, Next, Run, Gone;
      ghost var s0 := State();
      var r1, r2 := FirstRole(binding.pack), SecondRole(binding.pack);
      Toolbox.NoSteps(s0);
      FailSteps(s0, me, claimed);
      RunExtend(Next, s0, s0, [], [], s0, Step(me, AbortLoad(claimed)));
      trace := [] + [] + [Step(me, AbortLoad(claimed))];
      InvAlong(s0, trace);
      callers := callers[me := Revoking(r1, Some(r2))];
      ghost var t, more := State(), [];
      var tick;
      revoked, tick, more := Revoke(me, r1, Some(r2), claimed, acks, env, 0);
      Extend(s0, t, trace, State(), more);
      trace := trace + more;
      if revoked {
        t := State();
        revoked, tick, more := Revoke(me, r2, None, claimed, acksSecond, env, tick);
        Extend(s0, t, trace, State(), more);
        trace := trace + more;
        InvAlong(t, more);
        GoneStays(t, State(), r1);
      }
      trace := LetGo(me, s0, trace);
    }

    // -------------------------------------------------------------- finish

    /** One role of `finish`: its scope, and its receipts read one by one. */
    method ReadScope(role: Role, ids: seq<nat>) returns (r: Option<(Scope, nat, seq<Receipt>)>)
      ensures r == ReadRole(State(), role, ids)
    {
      hide Distinct, MandatoryAnalyzer, Allowed;
      if !HasScope(docs, role) {
        return None;
      }
      var record := ScopeOf(docs, role);
      if record.binding != binding || !record.state.Open? || ids == [] || ids != record.receipts || !Distinct(ids) {
        return None;
      }
      var found := [];
      for i := 0 to |ids|
        invariant AllHeld(docs, ids[..i]) && found == ReadReceipts(docs, ids[..i])
        invariant forall r :: r in found ==> r.role == role && r.source == binding.source
      {
        PrefixReads(docs, ids, i);
        if !HasReceipt(docs, ids[i]) || ReceiptOf(docs, ids[i]).role != role || ReceiptOf(docs, ids[i]).source != binding.source {
          return None;
        }
        found := found + [ReceiptOf(docs, ids[i])];
      }
      assert ids[..|ids|] == ids;
      if ToolsOf(found) != Allowed(role) {
        return None;
      }
      var analyzer := MandatoryAnalyzer(role);
      if analyzer.Some? && Analyzed(found, analyzer.value) != binding.documents {
        return None;
      }
      return Some((record, TagOf(docs, role), found));
    }

    /** `finish`: both roles are read in order, and both scopes closed in one batch. What returns
        is exactly what the closed scopes hold. */
    method Finish(me: nat, claimed: Binding, ids: map<Role, seq<nat>>, now: int, acked: bool, env: Interference)
      returns (r: Option<seq<Receipt>>, ghost trace: seq<Step>)
      requires LeavesMeAlone(me, env) && Valid() && At(State(), me) == Idle
      modifies this
      ensures State() == Run(Next, old(State()), trace) && Valid() && At(State(), me) == Idle
      ensures r.Some? ==> finished == [r.value] && ClosedWith(State(), r.value)
      ensures r.Some? ==> claimed == binding && now < binding.expiresAt
    {
      hide Inv, Next, Run, Admits, Batch, CloseWrites, ReadRole, ClosedWith;
      ghost var s0 := State();
      Toolbox.NoSteps(s0);
      var r1, r2 := FirstRole(binding.pack), SecondRole(binding.pack);
      if claimed != binding || ids.Keys != {r1, r2} || now >= binding.expiresAt {
        return None, [];
      }
      FinishStarts(s0, me, ids, now);
      RunExtend(Next, s0, s0, [], [], s0, Step(me, FinishLoad(binding, ids, now)));
      trace := [] + [] + [Step(me, FinishLoad(binding, ids, now))];
      callers := callers[me := Finishing(ids, now)];
      ghost var s1 := State();

      Await(me, env(0));
      ghost var s2 := State();
      FinishMoves(s2, me, acked);
      RunExtend(Next, s0, s1, trace, env(0), s2, Step(me, FinishFirst));
      trace := trace + env(0) + [Step(me, FinishFirst)];
      InvAlong(s0, trace);
      var first := ReadScope(r1, ids[r1]);
      if first.None? {
        callers := callers[me := Idle];
        return None, trace;
      }
      callers := callers[me := FinishingSecond(ids, first.value.0, first.value.1, first.value.2)];
      ghost var s3 := State();

      Await(me, env(1));
      ghost var s4 := State();
      FinishMoves(s4, me, acked);
      RunExtend(Next, s0, s3, trace, env(1), s4, Step(me, FinishSecond));
      trace := trace + env(1) + [Step(me, FinishSecond)];
      InvAlong(s0, trace);
      var second := ReadScope(r2, ids[r2]);
      if second.None? {
        callers := callers[me := Idle];
        return None, trace;
      }
      var found := first.value.2 + second.value.2;
      callers := callers[me := Closing(first.value.0, first.value.1, second.value.0, second.value.1, found)];
      ghost var s5 := State();
      ghost var more;
      r, more := Close(me, first.value.0, first.value.1, second.value.0, second.value.1, found, acked, env);
      Extend(s0, s5, trace, State(), more);
      trace := trace + more;
    }

    method Close(me: nat, first: Scope, firstTag: nat, second: Scope, secondTag: nat, found: seq<Receipt>, acked: bool, env: Interference)
      returns (r: Option<seq<Receipt>>, ghost trace: seq<Step>)
      requires LeavesMeAlone(me, env) && Valid() && At(State(), me) == Closing(first, firstTag, second, secondTag, found)
      modifies this
      ensures State() == Run(Next, old(State()), trace) && Valid() && At(State(), me) == Idle
      ensures r.Some? ==> r.value == found && finished == [found] && ClosedWith(State(), found)
    {
      hide Inv, Next, Run, Admits, Batch, CloseWrites, ClosedWith;
      ghost var s0 := State();
      Toolbox.NoSteps(s0);
      Await(me, env(2));
      ghost var s1 := State();
      FinishMoves(s1, me, acked);
      RunExtend(Next, s0, s0, [], env(2), s1, Step(me, FinishStore(acked)));
      trace := [] + env(2) + [Step(me, FinishStore(acked))];
      InvAlong(s0, trace);
      var writes := CloseWrites(first, firstTag, second, secondTag);
      var closed := Admits(docs, writes);
      docs := Batch(docs, writes);
      Unadmitted(s1.docs, writes);
      callers := callers[me := Idle];
      if closed && acked {
        finished := finished + [found];
        FinishedClosed(State(), found);
        r := Some(found);
      } else {
        r := None;
      }
    }
  }
}
