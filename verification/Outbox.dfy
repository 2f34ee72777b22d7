/** The Teams outbox of held certificate requests: any number of dispatchers claim, send and mark
    notifications, and recover the claims of workers that stopped. */
module Outbox {
  import opened Results
  import opened DocumentStore

  datatype Case = Case(tenant: nat, caseId: nat, assignee: nat)

  datatype State = Pending | Claimed | Delivered | Ambiguous

  datatype Notification = Notification(
    request: nat, opsCase: Case, state: State, attempt: Option<nat>, claimedAt: Option<int>, updatedAt: Option<int>, receipt: Option<nat>)

  /** A receipt text that is blank. */
  const BLANK: nat := 0

  /** What `CertificateNotification.parse` accepts. */
  predicate WellFormed(n: Notification) {
    && (n.state.Pending? <==> n.attempt.None?)
    && (n.state.Pending? <==> n.claimedAt.None?)
    && (n.state.Delivered? <==> n.receipt.Some? && n.receipt.value != BLANK)
  }

  /** Every transition leaves a document of its own beside the outbox entry. */
  datatype DocId = BoxId(request: nat) | TrailId(request: nat, attempt: nat, state: State)

  datatype Doc = BoxDoc(notification: Notification) | TrailDoc(notification: Notification)

  const STALE_AFTER := 300

  /** Where a dispatcher goes on after a mark. */
  datatype Then =
    | AfterRecover(todo: seq<Notification>, before: int, now: int)
    | AfterDelivery(claimed: Notification, todo: seq<Notification>)
    | AfterAmbiguous(todo: seq<Notification>)

  datatype Position =
    | Idle
    | Recovering(todo: seq<Notification>, before: int, now: int)
    | Listing
    | Dispatching(todo: seq<Notification>)
    | Claiming(request: nat, todo: seq<Notification>)
    | ClaimStoring(updated: Notification, etag: nat, todo: seq<Notification>)
    | Owning(claimed: Notification, todo: seq<Notification>)
    | Sending(claimed: Notification, todo: seq<Notification>)
    | InFlight(claimed: Notification, todo: seq<Notification>)
    | Finishing(request: nat, attempt: nat, outcome: State, receipt: Option<nat>, next: Then)
    | FinishStoring(updated: Notification, etag: nat, next: Then)

  /** A message handed to the sender: by which dispatcher, for which request and case. */
  datatype Call = Call(caller: nat, request: nat, caseId: nat, attempt: nat)

  datatype Answer = Answer(request: nat, attempt: nat, receipt: nat)

  /** Whose cases a dispatcher may route. */
  datatype Authority = Authority(tenant: nat, operations: nat)

  /** Services of different authorities may work on one store. */
  datatype Config = Config(authority: nat -> Authority)

  /** `calls` is everything handed to the sender, `answers` every receipt it gave. */
  datatype System = System(
    config: Config, cases: map<nat, Case>, docs: Partition<DocId, Doc>, callers: map<nat, Position>, calls: seq<Call>, answers: seq<Answer>)

  function Initial(config: Config): System {
    System(config, map[], Partition(map[], 0), map[], [], [])
  }

  function At(s: System, w: nat): Position {
    if w in s.callers then s.callers[w] else Idle
  }

  function Goto(s: System, w: nat, p: Position): System {
    s.(callers := s.callers[w := p])
  }

  predicate HasBox(s: System, request: nat) {
    BoxId(request) in s.docs.docs && s.docs.docs[BoxId(request)].body.BoxDoc?
  }

  function Box(s: System, request: nat): Notification
    requires HasBox(s, request)
  {
    s.docs.docs[BoxId(request)].body.notification
  }

  function TagOf(s: System, request: nat): nat
    requires HasBox(s, request)
  {
    s.docs.docs[BoxId(request)].etag
  }

  // ---------------------------------------------------------------- steps

  datatype Act =
    | Open(request: nat, opsCase: Case, at: int)
    | Start(now: int, found: seq<Notification>)
    | RecoverNext
    | List(found: seq<Notification>)
    | DispatchNext
    | ClaimLoad(now: int, attempt: nat)
    | ClaimStore(acked: bool)
    | Check
    | Send
    | Reply(receipt: Option<nat>)
    | FinishLoad(now: int)
    | FinishStore(acked: bool)
    | Crash

  datatype Step = Step(caller: nat, act: Act)

  /** A query reads entries that are stored, in the asked-for state. */
  predicate Found(s: System, found: seq<Notification>, state: State) {
    forall i :: 0 <= i < |found| ==> HasBox(s, found[i].request) && Box(s, found[i].request) == found[i] && found[i].state == state
  }

  function Next(s: System, step: Step): System {
    var w, p := step.caller, At(s, step.caller);
    match step.act
    case Open(request, opsCase, at) => NextOpen(s, request, opsCase, at)
    case Start(now, found) =>
      if p.Idle? && Found(s, found, Claimed) then Goto(s, w, Recovering(found, now - STALE_AFTER, now)) else s
    case RecoverNext => if p.Recovering? then NextRecover(s, w, p) else s
    case List(found) => if p.Listing? && Found(s, found, Pending) then Goto(s, w, Dispatching(found)) else s
    case DispatchNext => if p.Dispatching? then NextDispatch(s, w, p) else s
    case ClaimLoad(now, attempt) => if p.Claiming? then NextClaim(s, w, p, now, attempt) else s
    case ClaimStore(acked) => if p.ClaimStoring? then NextClaimStore(s, w, p, acked) else s
    case Check => if p.Owning? then NextCheck(s, w, p) else s
    case Send => if p.Sending? then NextSend(s, w, p) else s
    case Reply(receipt) => if p.InFlight? then NextReply(s, w, p, receipt) else s
    case FinishLoad(now) => if p.Finishing? then NextFinish(s, w, p, now) else s
    case FinishStore(acked) => if p.FinishStoring? then NextFinishStore(s, w, p, acked) else s
    case Crash => Goto(s, w, Idle)
  }

  /** The commit that holds a request creates its outbox entry. */
  function NextOpen(s: System, request: nat, opsCase: Case, at: int): System {
    var writes: Writes<DocId, Doc> := map[BoxId(request) := Create(BoxDoc(Notification(request, opsCase, Pending, None, None, Some(at), None)))];
    if request in s.cases || !Admits(s.docs, writes) then s
    else s.(cases := s.cases[request := opsCase], docs := Batch(s.docs, writes))
  }

  predicate Mine(s: System, w: nat, n: Notification) {
    n.opsCase.tenant == s.config.authority(w).tenant && n.opsCase.assignee == s.config.authority(w).operations
  }

  predicate Stale(n: Notification, before: int) {
    n.claimedAt.Some? && n.claimedAt.value <= before && n.attempt.Some?
  }

  /** One round of `recover_stale_claims`. */
  function NextRecover(s: System, w: nat, p: Position): System
    requires p.Recovering?
  {
    if p.todo == [] then Goto(s, w, Listing)
    else
      var n, rest := p.todo[0], p.todo[1..];
      if Mine(s, w, n) && Stale(n, p.before)
      then Goto(s, w, Finishing(n.request, n.attempt.value, Ambiguous, None, AfterRecover(rest, p.before, p.now)))
      else Goto(s, w, Recovering(rest, p.before, p.now))
  }

  function NextDispatch(s: System, w: nat, p: Position): System
    requires p.Dispatching?
  {
    if p.todo == [] then Goto(s, w, Idle)
    else if Mine(s, w, p.todo[0]) then Goto(s, w, Claiming(p.todo[0].request, p.todo[1..]))
    else Goto(s, w, Dispatching(p.todo[1..]))
  }

  /** The outbox entry is replaced under its tag, and the transition is filed. */
  function TransitionWrites(n: Notification, etag: nat): Writes<DocId, Doc>
    requires n.attempt.Some?
  {
    map[BoxId(n.request) := Replace(BoxDoc(n), etag),
        TrailId(n.request, n.attempt.value, n.state) := Create(TrailDoc(n))]
  }

  predicate Backwards(n: Notification, now: int) {
    n.updatedAt.Some? && now < n.updatedAt.value
  }

  /** `claim_notification`: only a pending entry is claimed. */
  function NextClaim(s: System, w: nat, p: Position, now: int, attempt: nat): System
    requires p.Claiming?
  {
    if !HasBox(s, p.request) then Goto(s, w, Idle)
    else
      var n := Box(s, p.request);
      if !n.state.Pending? then Goto(s, w, Dispatching(p.todo))
      else if Backwards(n, now) then Goto(s, w, Idle)
      else
        var claimed := n.(state := Claimed, attempt := Some(attempt), claimedAt := Some(now), updatedAt := Some(now));
        Goto(s, w, ClaimStoring(claimed, TagOf(s, p.request), p.todo))
  }

  /** A refused batch is a conflict, and the next entry is tried; an unacknowledged one ends the
      round, with the claim in place. */
  function NextClaimStore(s: System, w: nat, p: Position, acked: bool): System
    requires p.ClaimStoring?
  {
    if p.updated.attempt.None? || !Admits(s.docs, TransitionWrites(p.updated, p.etag)) then Goto(s, w, Dispatching(p.todo))
    else
      var t := s.(docs := Batch(s.docs, TransitionWrites(p.updated, p.etag)));
      Goto(t, w, if acked then Owning(p.updated, p.todo) else Idle)
  }

  /** The claimed entry must match the held record and the configured authority. */
  function NextCheck(s: System, w: nat, p: Position): System
    requires p.Owning?
  {
    var n := p.claimed;
    if n.attempt.None? then Goto(s, w, Idle)
    else if Mine(s, w, n) && n.request in s.cases && s.cases[n.request] == n.opsCase then Goto(s, w, Sending(n, p.todo))
    else Goto(s, w, Finishing(n.request, n.attempt.value, Ambiguous, None, AfterAmbiguous(p.todo)))
  }

  function NextSend(s: System, w: nat, p: Position): System
    requires p.Sending?
  {
    if p.claimed.attempt.None? then Goto(s, w, Idle)
    else Goto(s.(calls := s.calls + [Call(w, p.claimed.request, p.claimed.opsCase.caseId, p.claimed.attempt.value)]), w, InFlight(p.claimed, p.todo))
  }

  /** A receipt, or an exception: a failure, or the timeout, after which the message may still
      have been accepted. */
  function NextReply(s: System, w: nat, p: Position, receipt: Option<nat>): System
    requires p.InFlight?
  {
    var n := p.claimed;
    if n.attempt.None? then Goto(s, w, Idle)
    else if receipt.Some? && receipt.value != BLANK then
      Goto(s.(answers := s.answers + [Answer(n.request, n.attempt.value, receipt.value)]), w,
        Finishing(n.request, n.attempt.value, Delivered, receipt, AfterDelivery(n, p.todo)))
    else Goto(s, w, Finishing(n.request, n.attempt.value, Ambiguous, None, AfterAmbiguous(p.todo)))
  }

  /** `_finish`: only the attempt that holds the claim may finish it. */
  function NextFinish(s: System, w: nat, p: Position, now: int): System
    requires p.Finishing?
  {
    var at := if p.next.AfterRecover? then p.next.now else now;
    if !HasBox(s, p.request) then Unfinished(s, w, p.next, false)
    else
      var n := Box(s, p.request);
      if !n.state.Claimed? || n.attempt != Some(p.attempt) then Unfinished(s, w, p.next, true)
      else if Backwards(n, at) then Unfinished(s, w, p.next, false)
      else Goto(s, w, FinishStoring(n.(state := p.outcome, receipt := p.receipt, updatedAt := Some(at)), TagOf(s, p.request), p.next))
  }

  function NextFinishStore(s: System, w: nat, p: Position, acked: bool): System
    requires p.FinishStoring?
  {
    if p.updated.attempt.None? || !Admits(s.docs, TransitionWrites(p.updated, p.etag)) then Unfinished(s, w, p.next, true)
    else
      var t := s.(docs := Batch(s.docs, TransitionWrites(p.updated, p.etag)));
      if acked then Finished(t, w, p.next) else Unfinished(t, w, p.next, false)
  }

  function Resumed(next: Then): Position {
    match next
    case AfterRecover(todo, before, now) => Recovering(todo, before, now)
    case AfterDelivery(_, todo) => Dispatching(todo)
    case AfterAmbiguous(todo) => Dispatching(todo)
  }

  /** A mark that failed. A conflict means another worker finished the entry; any other failure
      ends the round, except that a delivery that cannot be recorded is marked ambiguous. */
  function GivenUp(next: Then, conflict: bool): Position {
    match next
    case AfterRecover(todo, before, now) => if conflict then Recovering(todo, before, now) else Idle
    case AfterDelivery(n, todo) =>
      if n.attempt.None? then Idle else Finishing(n.request, n.attempt.value, Ambiguous, None, AfterAmbiguous(todo))
    case AfterAmbiguous(todo) => if conflict then Dispatching(todo) else Idle
  }

  function Finished(s: System, w: nat, next: Then): System {
    Goto(s, w, Resumed(next))
  }

  function Unfinished(s: System, w: nat, next: Then, conflict: bool): System {
    Goto(s, w, GivenUp(next, conflict))
  }
}
