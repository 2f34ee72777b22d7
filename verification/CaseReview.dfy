/** The case review contract: a snapshot carries its whole audit log and must equal the replay of
    it. Two programs check that, the service when it validates a review and the staff web client
    when it reads one. */
module CaseReview {
  import opened Results

  datatype CaseAction = Acknowledge | AddNote | CloseWithoutRelease

  datatype CaseState = Open | Acknowledged | ClosedWithoutRelease

  /** `note` is the trimmed text, zero standing for the empty one. */
  datatype Command = Command(id: nat, caseId: nat, hash: nat, expected: int, action: CaseAction, note: nat)

  datatype Event = Event(sequence: int, actor: nat, at: int, command: Command)

  datatype Review = Review(
    requestId: nat, tenant: nat, caseId: nat, assignee: nat, hash: nat, revision: int, state: CaseState, events: seq<Event>)

  const MAX_EVENTS := 1000

  // ---------------------------------------------------------------- what a consistent review is

  /** `next_case_state`; None where it raises. */
  function NextCaseState(state: CaseState, action: CaseAction): Option<CaseState> {
    if state.ClosedWithoutRelease? then None
    else if action.Acknowledge? then (if state.Open? then Some(Acknowledged) else None)
    else if action.CloseWithoutRelease? then Some(ClosedWithoutRelease)
    else Some(state)
  }

  function Replay(events: seq<Event>): Option<CaseState> {
    if events == [] then Some(Open)
    else
      match Replay(events[..|events| - 1])
      case None => None
      case Some(state) => NextCaseState(state, events[|events| - 1].command.action)
  }

  predicate Explained(c: Command) {
    c.action.Acknowledge? || c.note != 0
  }

  /** Event `i` is bound to its place, to the case, to the evidence and to the assigned person. */
  predicate BoundAt(r: Review, i: nat)
    requires i < |r.events|
  {
    var e := r.events[i];
    && e.sequence == i + 1 && e.command.expected == i
    && e.command.caseId == r.caseId && e.command.hash == r.hash && e.actor == r.assignee
    && Explained(e.command)
  }

  predicate IdsDistinct(events: seq<Event>) {
    forall i, j :: 0 <= i < j < |events| ==> events[i].command.id != events[j].command.id
  }

  predicate TimesOrdered(events: seq<Event>) {
    forall i :: 0 < i < |events| ==> events[i - 1].at <= events[i].at
  }

  predicate Consistent(r: Review) {
    && |r.events| <= MAX_EVENTS
    && r.revision == |r.events|
    && (forall i :: 0 <= i < |r.events| ==> BoundAt(r, i))
    && IdsDistinct(r.events)
    && TimesOrdered(r.events)
    && Replay(r.events) == Some(r.state)
  }

  // ---------------------------------------------------------------- the two implementations

  function IdsOf(events: seq<Event>): set<nat> {
    set e | e in events :: e.command.id
  }

  lemma IdsOfPrefix(events: seq<Event>, i: nat)
    requires i < |events|
    ensures IdsOf(events[..i + 1]) == IdsOf(events[..i]) + {events[i].command.id}
    ensures events[i].command.id in IdsOf(events[..i]) <==> exists j :: 0 <= j < i && events[j].command.id == events[i].command.id
  {
    assert events[..i + 1] == events[..i] + [events[i]];
    if events[i].command.id in IdsOf(events[..i]) {
      var e :| e in events[..i] && e.command.id == events[i].command.id;
    }
    forall j | 0 <= j < i && events[j].command.id == events[i].command.id ensures events[i].command.id in IdsOf(events[..i]) {
      assert events[j] in events[..i];
    }
  }

  /** The replay of a longer log is stuck where the replay of a shorter one is. */
  lemma {:induction false} StuckStaysStuck(events: seq<Event>, n: nat)
    requires n <= |events| && Replay(events[..n]).None?
    ensures Replay(events).None?
    decreases |events| - n
  {
    if n < |events| {
      assert events[..n + 1][..n] == events[..n];
      StuckStaysStuck(events, n + 1);
    } else {
      assert events[..n] == events;
    }
  }

  lemma ReplayStep(events: seq<Event>, i: nat)
    requires i < |events|
    ensures Replay(events[..i + 1]) ==
      match Replay(events[..i])
      case None => None
      case Some(state) => NextCaseState(state, events[i].command.action)
  {
    assert events[..i + 1][..i] == events[..i];
  }

  /** The first `n` events pass, and leave the case in some state. */
  predicate PassesTo(r: Review, n: nat)
    requires n <= |r.events|
  {
    && (forall i :: 0 <= i < n ==> BoundAt(r, i))
    && IdsDistinct(r.events[..n]) && TimesOrdered(r.events[..n])
    && Replay(r.events[..n]).Some?
  }

  function StateAfter(r: Review, n: nat): CaseState
    requires n <= |r.events| && PassesTo(r, n)
  {
    Replay(r.events[..n]).value
  }

  /** The next event passes exactly when it is bound, its id is new, its clock did not go back,
      and the state admits its action. */
  predicate PassesNext(r: Review, n: nat)
    requires n < |r.events| && PassesTo(r, n)
  {
    && BoundAt(r, n)
    && r.events[n].command.id !in IdsOf(r.events[..n])
    && (n > 0 ==> r.events[n - 1].at <= r.events[n].at)
    && NextCaseState(StateAfter(r, n), r.events[n].command.action).Some?
  }

  lemma OneMoreId(events: seq<Event>, n: nat)
    requires n < |events|
    ensures IdsDistinct(events[..n + 1]) <==> IdsDistinct(events[..n]) && events[n].command.id !in IdsOf(events[..n])
  {
    IdsOfPrefix(events, n);
    var shorter, longer := events[..n], events[..n + 1];
    assert longer == shorter + [events[n]];
    if IdsDistinct(longer) {
      assert forall j :: 0 <= j < n ==> longer[j].command.id != longer[n].command.id;
    }
  }

  lemma OneMoreTime(events: seq<Event>, n: nat)
    requires n < |events|
    ensures TimesOrdered(events[..n + 1]) <==> TimesOrdered(events[..n]) && (n > 0 ==> events[n - 1].at <= events[n].at)
  {
    var shorter, longer := events[..n], events[..n + 1];
    assert longer == shorter + [events[n]];
    if TimesOrdered(longer) && n > 0 {
      assert longer[n - 1].at <= longer[n].at;
    }
  }

  lemma OneMorePasses(r: Review, n: nat)
    requires n < |r.events| && PassesTo(r, n)
    ensures PassesTo(r, n + 1) <==> PassesNext(r, n)
    ensures PassesNext(r, n) ==> NextCaseState(StateAfter(r, n), r.events[n].command.action) == Some(StateAfter(r, n + 1))
    ensures IdsOf(r.events[..n + 1]) == IdsOf(r.events[..n]) + {r.events[n].command.id}
  {
    hide IdsOf, IdsDistinct, TimesOrdered, Replay, NextCaseState, BoundAt;
    IdsOfPrefix(r.events, n);
    OneMoreId(r.events, n);
    OneMoreTime(r.events, n);
    ReplayStep(r.events, n);
  }

  lemma PassesAll(r: Review)
    ensures Consistent(r) <==>
      |r.events| <= MAX_EVENTS && r.revision == |r.events| && PassesTo(r, |r.events|) && StateAfter(r, |r.events|) == r.state
  {
    assert r.events[..|r.events|] == r.events;
  }

  lemma NothingPasses(r: Review)
    ensures PassesTo(r, 0) && StateAfter(r, 0) == Open && IdsOf(r.events[..0]) == {}
  {
  }

  lemma {:induction false} RefusedForGood(r: Review, n: nat)
    requires n <= |r.events| && !PassesTo(r, n)
    ensures !Consistent(r)
  {
    if Consistent(r) {
      assert r.events[..n] <= r.events;
      if Replay(r.events[..n]).None? {
        StuckStaysStuck(r.events, n);
      }
    }
  }

  /** `CaseReview.replay`, after the field validators of the nested contracts. */
  method Validate(r: Review) returns (ok: bool)
    ensures ok <==> Consistent(r)
  {
    hide PassesTo, StateAfter, IdsOf, IdsDistinct, TimesOrdered, Replay, NextCaseState, Consistent;
    PassesAll(r);
    if |r.events| > MAX_EVENTS || r.revision < 0 {
      return false;
    }
    for i := 0 to |r.events|
      invariant forall j :: 0 <= j < i ==> Explained(r.events[j].command)
    {
      var event := r.events[i];
      if event.sequence < 1 || event.command.expected < 0 || !Explained(event.command) {
        NotBound(r, i);
        return false;
      }
    }
    NothingPasses(r);
    var state := Open;
    var seen: set<nat> := {};
    for i := 0 to |r.events|
      invariant PassesTo(r, i) && StateAfter(r, i) == state
      invariant seen == IdsOf(r.events[..i])
    {
      var event := r.events[i];
      var command := event.command;
      OneMorePasses(r, i);
      if !PassesTo(r, i + 1) {
        RefusedForGood(r, i + 1);
      }
      if event.sequence != i + 1 || command.expected != i || command.caseId != r.caseId || command.hash != r.hash
         || event.actor != r.assignee || command.id in seen {
        return false;
      }
      if i > 0 && event.at < r.events[i - 1].at {
        return false;
      }
      seen := seen + {command.id};
      var next := NextCaseState(state, command.action);
      if next.None? {
        return false;
      }
      state := next.value;
    }
    return r.revision == |r.events| && r.state == state;
  }

  lemma NotBound(r: Review, i: nat)
    requires i < |r.events| && !BoundAt(r, i)
    ensures !Consistent(r)
  {
  }

  /** `parse` of the web client: one pass, with the three checks of the state written out and the
      previous time kept in a variable. */
  method Parse(r: Review, requestId: nat, tenant: nat) returns (ok: bool)
    ensures ok <==> Consistent(r) && r.requestId == requestId && r.tenant == tenant
  {
    hide PassesTo, StateAfter, IdsOf, IdsDistinct, TimesOrdered, Replay, Consistent;
    PassesAll(r);
    if r.requestId != requestId || r.tenant != tenant || |r.events| > 1000 || r.revision != |r.events| {
      return false;
    }
    NothingPasses(r);
    var state := Open;
    var previousTime: Option<int> := None;
    var seen: set<nat> := {};
    for i := 0 to |r.events|
      invariant PassesTo(r, i) && StateAfter(r, i) == state
      invariant previousTime == if i == 0 then None else Some(r.events[i - 1].at)
      invariant seen == IdsOf(r.events[..i])
    {
      var event := r.events[i];
      var command := event.command;
      OneMorePasses(r, i);
      if !PassesTo(r, i + 1) {
        RefusedForGood(r, i + 1);
      }
      if event.sequence != i + 1 || event.actor != r.assignee
         || (previousTime.Some? && event.at < previousTime.value)
         || command.caseId != r.caseId || command.hash != r.hash || command.expected != i
         || command.id in seen
         || (!command.action.Acknowledge? && command.note == 0)
         || state.ClosedWithoutRelease? {
        return false;
      }
      if command.action.Acknowledge? {
        if !state.Open? {
          return false;
        }
        state := Acknowledged;
      }
      if command.action.CloseWithoutRelease? {
        state := ClosedWithoutRelease;
      }
      previousTime := Some(event.at);
      seen := seen + {command.id};
    }
    return r.state == state;
  }

  // ---------------------------------------------------------------- what consistency gives

  /** The snapshot that was current after the first `n` events. */
  function Earlier(r: Review, n: nat): Review
    requires n <= |r.events| && Replay(r.events[..n]).Some?
  {
    r.(revision := n, state := Replay(r.events[..n]).value, events := r.events[..n])
  }

  /** Every prefix of a consistent log is the log of a consistent review. */
  lemma PrefixesAreConsistent(r: Review, n: nat)
    requires Consistent(r) && n <= |r.events|
    ensures Replay(r.events[..n]).Some? && Consistent(Earlier(r, n))
  {
    if Replay(r.events[..n]).None? {
      StuckStaysStuck(r.events, n);
    }
    var e := Earlier(r, n);
    forall i | 0 <= i < |e.events| ensures BoundAt(e, i) {
      assert BoundAt(r, i);
    }
  }

  /** Nothing follows a closure, and no case is acknowledged twice. */
  lemma ClosureIsLast(r: Review, i: nat, j: nat)
    requires Consistent(r) && i < j < |r.events|
    ensures !r.events[i].command.action.CloseWithoutRelease?
    ensures r.events[i].command.action.Acknowledge? ==> !r.events[j].command.action.Acknowledge?
  {
    hide Replay, Consistent;
    PrefixesAreConsistent(r, i + 1);
    PrefixesAreConsistent(r, i);
    ReplayStep(r.events, i);
    PrefixesAreConsistent(r, j + 1);
    PrefixesAreConsistent(r, j);
    ReplayStep(r.events, j);
    NeverOpensAgain(r.events, i + 1, j);
  }

  /** Along one log the state only moves forward, and a closed case has no successor. */
  lemma {:induction false} NeverOpensAgain(events: seq<Event>, m: nat, n: nat)
    requires m <= n <= |events| && Replay(events[..n]).Some?
    ensures Replay(events[..m]).Some?
    ensures !Replay(events[..m]).value.Open? ==> !Replay(events[..n]).value.Open?
    ensures Replay(events[..m]).value.ClosedWithoutRelease? ==> m == n
    decreases n - m
  {
    if m < n {
      ReplayStep(events, n - 1);
      NeverOpensAgain(events, m, n - 1);
    }
  }
}
