/** The case review controller and its store: concurrent commands against one held case. A
    command is read against the stored review, and the review with one event more is committed
    by compare-and-swap together with an immutable event document. */
module CaseDesk {
  import opened Results
  import opened CaseReview
  import opened DocumentStore
  import opened Traces

  /** What the held certificate request says about its Operations case. */
  datatype HeldCase = HeldCase(tenant: nat, caseId: nat, assignee: nat, hash: nat, heldAt: int)

  datatype Config = Config(requestId: nat, tenant: nat, operations: nat)

  datatype DocId = ReviewId | EventId(sequence: nat)

  datatype Doc = ReviewDoc(review: Review) | EventDoc(event: Event)

  datatype Position =
    | Idle
    | Reading(sender: Sender, command: Command, initial: Review)
    | Committing(sender: Sender, command: Command, updated: Review)
    | Submitting(sender: Sender, command: Command, updated: Review, etag: nat)

  /** Who sent a command: the verified tenant and user. */
  datatype Sender = Sender(tenant: nat, actor: nat)

  /** What a call of `act` returned, and to whom. */
  datatype Answer = Answer(sender: Sender, command: Command, review: Review)

  datatype Desk = Desk(
    config: Config, held: Option<HeldCase>, docs: Partition<DocId, Doc>, callers: map<nat, Position>, answers: seq<Answer>)

  function Opened(config: Config): Desk {
    Desk(config, None, Partition(map[], 0), map[], [])
  }

  function At(s: Desk, w: nat): Position {
    if w in s.callers then s.callers[w] else Idle
  }

  function Goto(s: Desk, w: nat, p: Position): Desk {
    s.(callers := s.callers[w := p])
  }

  predicate HasReview(s: Desk) {
    ReviewId in s.docs.docs && s.docs.docs[ReviewId].body.ReviewDoc?
  }

  function Stored(s: Desk): Review
    requires HasReview(s)
  {
    s.docs.docs[ReviewId].body.review
  }

  /** The log of the case. */
  function Log(s: Desk): seq<Event> {
    if HasReview(s) then Stored(s).events else []
  }

  function Initial(config: Config, held: HeldCase): Review {
    Review(config.requestId, held.tenant, held.caseId, held.assignee, held.hash, 0, Open, [])
  }

  predicate SameBinding(a: Review, b: Review) {
    a.(revision := 0, state := Open, events := []) == b.(revision := 0, state := Open, events := [])
  }

  // ---------------------------------------------------------------- steps

  datatype Act =
    | Hold(held: HeldCase)
    | ActLoad(tenant: nat, actor: nat, command: Command)
    | ActRead(now: int)
    | CommitLoad
    | CommitStore(acked: bool)
    | Crash

  datatype Step = Step(caller: nat, act: Act)

  function Next(s: Desk, step: Step): Desk {
    var w, p := step.caller, At(s, step.caller);
    match step.act
    case Hold(held) => if s.held.None? then s.(held := Some(held)) else s
    case ActLoad(tenant, actor, command) => if p.Idle? then NextLoad(s, w, tenant, actor, command) else s
    case ActRead(now) => if p.Reading? then NextRead(s, w, p, now) else s
    case CommitLoad => if p.Committing? then NextCommit(s, w, p) else s
    case CommitStore(acked) => if p.Submitting? then NextStore(s, w, p, acked) else s
    case Crash => Goto(s, w, Idle)
  }

  predicate Assigned(s: Desk, tenant: nat, actor: nat) {
    && tenant == s.config.tenant && actor == s.config.operations
    && s.held.Some? && s.held.value.tenant == s.config.tenant && s.held.value.assignee == s.config.operations
  }

  function NextLoad(s: Desk, w: nat, tenant: nat, actor: nat, command: Command): Desk {
    if Assigned(s, tenant, actor) && Explained(command) && command.expected >= 0
    then Goto(s, w, Reading(Sender(tenant, actor), command, Initial(s.config, s.held.value)))
    else s
  }

  /** The first event of a log with a command's id, if there is one. */
  function Find(events: seq<Event>, id: nat): Option<Event> {
    if events == [] then None
    else if events[0].command.id == id then Some(events[0])
    else Find(events[1..], id)
  }

  function Appended(current: Review, actor: nat, now: int, command: Command, state: CaseState): Review {
    current.(
      revision := current.revision + 1, state := state,
      events := current.events + [Event(current.revision + 1, actor, now, command)])
  }

  /** What `act` makes of the review it read: an answer, a refusal, or a review to commit. */
  datatype Judgement = Repeated | Refused | Fresh(updated: Review)

  function Judge(current: Review, initial: Review, actor: nat, now: int, command: Command): Judgement {
    if !SameBinding(current, initial) then Refused
    else if command.caseId != current.caseId || command.hash != current.hash then Refused
    else
      match Find(current.events, command.id)
      case Some(event) => if event.command == command then Repeated else Refused
      case None =>
        if command.expected != current.revision || current.revision >= MAX_EVENTS then Refused
        else
          match NextCaseState(current.state, command.action)
          case None => Refused
          case Some(state) =>
            var updated := Appended(current, actor, now, command, state);
            if Consistent(updated) then Fresh(updated) else Refused
  }

  function NextRead(s: Desk, w: nat, p: Position, now: int): Desk
    requires p.Reading?
  {
    var current := if HasReview(s) then Stored(s) else p.initial;
    match Judge(current, p.initial, p.sender.actor, now, p.command)
    case Refused => Goto(s, w, Idle)
    case Repeated => Goto(s.(answers := s.answers + [Answer(p.sender, p.command, current)]), w, Idle)
    case Fresh(updated) => Goto(s, w, Committing(p.sender, p.command, updated))
  }

  /** `commit_review` up to its batch. */
  function NextCommit(s: Desk, w: nat, p: Position): Desk
    requires p.Committing?
  {
    var review := p.updated;
    if !Consistent(review) || review.events == [] || s.held.None? || !SameBinding(review, Initial(s.config, s.held.value)) then Goto(s, w, Idle)
    else if review.events[0].at < s.held.value.heldAt then Goto(s, w, Idle)
    else if review.revision == 1 then Goto(s, w, Submitting(p.sender, p.command, review, 0))
    else if !HasReview(s) || Stored(s).revision != review.revision - 1 || Stored(s).events != review.events[..|review.events| - 1]
    then Goto(s, w, Idle)
    else Goto(s, w, Submitting(p.sender, p.command, review, s.docs.docs[ReviewId].etag))
  }

  function CommitWrites(review: Review, etag: nat): Writes<DocId, Doc>
    requires review.events != []
  {
    map[
      ReviewId := if |review.events| == 1 then Create(ReviewDoc(review)) else Replace(ReviewDoc(review), etag),
      EventId(|review.events|) := Create(EventDoc(review.events[|review.events| - 1]))]
  }

  function NextStore(s: Desk, w: nat, p: Position, acked: bool): Desk
    requires p.Submitting?
  {
    if p.updated.events == [] || !Admits(s.docs, CommitWrites(p.updated, p.etag)) then Goto(s, w, Idle)
    else
      Goto(
        s.(docs := Batch(s.docs, CommitWrites(p.updated, p.etag)),
           answers := s.answers + if acked then [Answer(p.sender, p.command, p.updated)] else []),
        w, Idle)
  }

  // ---------------------------------------------------------------- the invariant

  /** A review of the held case that is the replay of its own log. */
  ghost predicate Sound(s: Desk, r: Review) {
    && Consistent(r) && s.held.Some? && SameBinding(r, Initial(s.config, s.held.value))
  }

  /** The held case is in the tenant of the workflow and assigned to its Operations user. */
  predicate Ours(s: Desk) {
    s.held.Some? && s.held.value.tenant == s.config.tenant && s.held.value.assignee == s.config.operations
  }

  /** And the sender is that user. */
  predicate Rightful(s: Desk, sender: Sender) {
    sender.tenant == s.config.tenant && sender.actor == s.config.operations && Ours(s)
  }

  /** The stored documents are one review and exactly its events. */
  ghost predicate Filed(s: Desk) {
    && Tagged(s.docs)
    && (ReviewId in s.docs.docs ==> HasReview(s) && Sound(s, Stored(s)) && Stored(s).events != [] && Ours(s))
    && (Log(s) != [] ==> s.held.Some? && s.held.value.heldAt <= Log(s)[0].at)
    && (forall n: nat :: EventId(n) in s.docs.docs <==> 1 <= n <= |Log(s)|)
    && (forall n: nat :: 1 <= n <= |Log(s)| ==> s.docs.docs[EventId(n)].body == EventDoc(Log(s)[n - 1]))
  }

  ghost predicate Extends(r: Review, command: Command) {
    r.events != [] && r.events[|r.events| - 1].command == command
  }

  ghost predicate PositionOk(s: Desk, p: Position) {
    match p
    case Idle => true
    case Reading(sender, command, initial) => Rightful(s, sender) && s.held.Some? && initial == Initial(s.config, s.held.value) && Explained(command)
    case Committing(sender, command, updated) => Rightful(s, sender) && Sound(s, updated) && Extends(updated, command)
    case Submitting(sender, command, updated, etag) =>
      && Rightful(s, sender) && Sound(s, updated) && Extends(updated, command)
      && s.held.value.heldAt <= updated.events[0].at
      && (|updated.events| > 1 ==>
            && HasReview(s) && etag < s.docs.clock
            && (s.docs.docs[ReviewId].etag == etag ==> Stored(s).events == updated.events[..|updated.events| - 1]))
  }

  /** An answer is a sound review whose log the stored one continues, and the command is in it,
      as it was sent. */
  ghost predicate AnswerOk(s: Desk, a: Answer) {
    && Rightful(s, a.sender) && Sound(s, a.review) && a.review.events <= Log(s)
    && exists i :: 0 <= i < |a.review.events| && a.review.events[i].command == a.command
  }

  ghost predicate Inv(s: Desk) {
    && Filed(s)
    && (forall w :: w in s.callers ==> PositionOk(s, s.callers[w]))
    && (forall i :: 0 <= i < |s.answers| ==> AnswerOk(s, s.answers[i]))
    && (s.held.None? ==> s.answers == [])
  }

  /** What a later moment keeps of an earlier one. */
  ghost predicate Later(s: Desk, t: Desk) {
    && t.config == s.config && (s.held.Some? ==> t.held == s.held)
    && Log(s) <= Log(t) && s.answers <= t.answers
    && (HasReview(s) && Stored(s).state.ClosedWithoutRelease? ==> HasReview(t) && Stored(t) == Stored(s))
  }

  lemma {:induction false} FindIs(events: seq<Event>, id: nat)
    ensures Find(events, id).Some? <==> exists i :: 0 <= i < |events| && events[i].command.id == id
    ensures Find(events, id).Some? ==> exists i :: 0 <= i < |events| && events[i] == Find(events, id).value && events[i].command.id == id
  {
    if events != [] && events[0].command.id != id {
      FindIs(events[1..], id);
      if Find(events[1..], id).Some? {
        var i :| 0 <= i < |events[1..]| && events[1..][i] == Find(events[1..], id).value && events[1..][i].command.id == id;
        assert events[i + 1] == events[1..][i];
      }
      if i :| 0 <= i < |events| && events[i].command.id == id {
        assert events[1..][i - 1] == events[i];
      }
    }
  }

  lemma GotoKeeps(s: Desk, w: nat, p: Position)
    requires Inv(s) && PositionOk(s, p)
    ensures Inv(Goto(s, w, p)) && Later(s, Goto(s, w, p))
  {
    var t := Goto(s, w, p);
    assert Log(t) == Log(s);
    forall i | 0 <= i < |t.answers| ensures AnswerOk(t, t.answers[i]) {
      assert AnswerOk(s, s.answers[i]);
    }
    forall v | v in t.callers ensures PositionOk(t, t.callers[v]) {
      assert PositionOk(s, if v == w then p else s.callers[v]);
    }
  }

  lemma AnswerKeeps(s: Desk, a: Answer)
    requires Inv(s) && AnswerOk(s, a)
    ensures Inv(s.(answers := s.answers + [a])) && Later(s, s.(answers := s.answers + [a]))
  {
    var t := s.(answers := s.answers + [a]);
    assert Log(t) == Log(s);
    forall i | 0 <= i < |t.answers| ensures AnswerOk(t, t.answers[i]) {
      assert AnswerOk(s, if i < |s.answers| then s.answers[i] else a);
    }
    forall v | v in t.callers ensures PositionOk(t, t.callers[v]) {
      assert PositionOk(s, s.callers[v]);
    }
  }

  lemma HoldKeeps(s: Desk, held: HeldCase)
    requires Inv(s) && s.held.None?
    ensures Inv(s.(held := Some(held))) && Later(s, s.(held := Some(held)))
  {
    var t := s.(held := Some(held));
    assert Log(t) == Log(s);
    forall v | v in t.callers ensures PositionOk(t, t.callers[v]) {
      assert PositionOk(s, s.callers[v]);
    }
  }

  lemma ReadKeeps(s: Desk, w: nat, p: Position, now: int)
    requires Inv(s) && p.Reading? && w in s.callers && s.callers[w] == p
    ensures Inv(NextRead(s, w, p, now)) && Later(s, NextRead(s, w, p, now))
  {
    hide Inv, Consistent, Find, NextCaseState, Later;
    ReadFacts(s, w, p);
    var current := if HasReview(s) then Stored(s) else p.initial;
    FindIs(current.events, p.command.id);
    match Judge(current, p.initial, p.sender.actor, now, p.command)
    case Refused => GotoKeeps(s, w, Idle);
    case Repeated =>
      var a := Answer(p.sender, p.command, current);
      AnswerKeeps(s, a);
      GotoKeeps(s.(answers := s.answers + [a]), w, Idle);
      LaterComposes(s, s.(answers := s.answers + [a]), NextRead(s, w, p, now));
    case Fresh(updated) => GotoKeeps(s, w, Committing(p.sender, p.command, updated));
  }

  lemma ReadFacts(s: Desk, w: nat, p: Position)
    requires Inv(s) && p.Reading? && w in s.callers && s.callers[w] == p
    ensures PositionOk(s, p) && (HasReview(s) ==> Sound(s, Stored(s))) && Consistent(p.initial)
  {
  }

  lemma CommitKeeps(s: Desk, w: nat, p: Position)
    requires Inv(s) && p.Committing? && w in s.callers && s.callers[w] == p
    ensures Inv(NextCommit(s, w, p)) && Later(s, NextCommit(s, w, p))
  {
    hide Consistent, Later;
    assert PositionOk(s, p);
    RevisionIsLength(p.updated);
    GotoKeeps(s, w, Idle);
    var q := At(NextCommit(s, w, p), w);
    GotoKeeps(s, w, q);
  }

  lemma RevisionIsLength(r: Review)
    requires Consistent(r)
    ensures r.revision == |r.events|
  {
  }

  /** An admitted commit appends its one event to the log as it stands. */
  lemma StoreAppends(s: Desk, p: Position)
    requires Inv(s) && p.Submitting? && PositionOk(s, p) && Admits(s.docs, CommitWrites(p.updated, p.etag))
    ensures var t := s.(docs := Batch(s.docs, CommitWrites(p.updated, p.etag)));
      && HasReview(t) && Stored(t) == p.updated
      && Log(t) == Log(s) + [p.updated.events[|p.updated.events| - 1]]
      && (HasReview(s) ==> !Stored(s).state.ClosedWithoutRelease?)
      && Filed(t)
      && s.docs.clock < t.docs.clock && t.docs.docs[ReviewId].etag == s.docs.clock
  {
    hide Consistent, Inv;
    var writes := CommitWrites(p.updated, p.etag);
    assert ReviewId in writes && EventId(|p.updated.events|) in writes;
    AppendFacts(s, p);
    var t := s.(docs := Batch(s.docs, writes));
    BatchKeepsTags(s.docs, writes);
    assert Log(s) == p.updated.events[..|p.updated.events| - 1];
    assert Log(t) == Log(s) + [p.updated.events[|p.updated.events| - 1]];
  }

  lemma AppendFacts(s: Desk, p: Position)
    requires Inv(s) && p.Submitting? && PositionOk(s, p) && Admits(s.docs, CommitWrites(p.updated, p.etag))
    ensures Filed(s) && Log(s) == p.updated.events[..|p.updated.events| - 1]
    ensures HasReview(s) ==> !Stored(s).state.ClosedWithoutRelease?
  {
    var writes := CommitWrites(p.updated, p.etag);
    assert ReviewId in writes && EventId(|p.updated.events|) in writes;
    if HasReview(s) {
      assert p.updated.events[..|p.updated.events|] == p.updated.events;
      NeverOpensAgain(p.updated.events, |p.updated.events| - 1, |p.updated.events|);
    }
  }

  lemma StoreKeeps(s: Desk, w: nat, p: Position, acked: bool)
    requires Inv(s) && p.Submitting? && w in s.callers && s.callers[w] == p
    ensures Inv(NextStore(s, w, p, acked)) && Later(s, NextStore(s, w, p, acked))
  {
    hide Consistent, Filed, CommitWrites, Admits, Batch;
    assert PositionOk(s, p);
    if Admits(s.docs, CommitWrites(p.updated, p.etag)) {
      StoreAppends(s, p);
      var t := s.(docs := Batch(s.docs, CommitWrites(p.updated, p.etag)));
      assert Inv(t) && Later(s, t) by {
        AppendedKeeps(s, t);
      }
      hide Inv, Later, PositionOk;
      assert AnswerOk(t, Answer(p.sender, p.command, p.updated));
      AnswerKeeps(t, Answer(p.sender, p.command, p.updated));
      var u := if acked then t.(answers := t.answers + [Answer(p.sender, p.command, p.updated)]) else t;
      assert NextStore(s, w, p, acked) == Goto(u, w, Idle) by {
        assert t.answers + [] == t.answers;
      }
      IdleIsOk(u);
      GotoKeeps(u, w, Idle);
      LaterReflexive(t);
      LaterComposes(s, t, u);
      LaterComposes(s, u, Goto(u, w, Idle));
    } else {
      hide Inv, Later;
      GotoKeeps(s, w, Idle);
    }
  }

  lemma IdleIsOk(s: Desk)
    ensures PositionOk(s, Idle)
  {
  }

  /** One event more keeps everyone's position: who read an older tag can no longer commit. */
  lemma AppendedKeeps(s: Desk, t: Desk)
    requires Inv(s) && Filed(t) && t == s.(docs := t.docs) && HasReview(t)
    requires Log(s) <= Log(t) && s.docs.clock < t.docs.clock && t.docs.docs[ReviewId].etag == s.docs.clock
    requires HasReview(s) ==> !Stored(s).state.ClosedWithoutRelease?
    ensures Inv(t) && Later(s, t)
  {
    hide Filed, Consistent;
    forall i | 0 <= i < |t.answers| ensures AnswerOk(t, t.answers[i]) {
      assert AnswerOk(s, s.answers[i]);
    }
    forall v | v in t.callers ensures PositionOk(t, t.callers[v]) {
      assert PositionOk(s, s.callers[v]);
    }
  }

  lemma NextKeeps(s: Desk, step: Step)
    requires Inv(s)
    ensures Inv(Next(s, step)) && Later(s, Next(s, step))
  {
    hide Inv, Later, NextRead, NextCommit, NextStore;
    var w, p := step.caller, At(s, step.caller);
    LaterReflexive(s);
    IdleIsOk(s);
    match step.act
    case Hold(held) => if s.held.None? { HoldKeeps(s, held); }
    case ActLoad(tenant, actor, command) =>
      if p.Idle? && Assigned(s, tenant, actor) && Explained(command) {
        GotoKeeps(s, w, Reading(Sender(tenant, actor), command, Initial(s.config, s.held.value)));
      }
    case ActRead(now) => if p.Reading? { ReadKeeps(s, w, p, now); }
    case CommitLoad => if p.Committing? { CommitKeeps(s, w, p); }
    case CommitStore(acked) => if p.Submitting? { StoreKeeps(s, w, p, acked); }
    case Crash => GotoKeeps(s, w, Idle);
  }

  lemma LaterReflexive(s: Desk)
    ensures Later(s, s)
  {
  }

  lemma LaterComposes(s: Desk, t: Desk, u: Desk)
    requires Later(s, t) && Later(t, u)
    ensures Later(s, u)
  {
  }

  // ---------------------------------------------------------------- the results

  lemma {:induction false} HistoryOnlyGrows(s: Desk, steps: seq<Step>)
    requires Inv(s)
    ensures Inv(Run(Next, s, steps)) && Later(s, Run(Next, s, steps))
  {
    hide Inv, Later, Next;
    if steps == [] {
      LaterReflexive(s);
    } else {
      var t := Run(Next, s, steps[..|steps| - 1]);
      HistoryOnlyGrows(s, steps[..|steps| - 1]);
      NextKeeps(t, steps[|steps| - 1]);
      LaterComposes(s, t, Next(t, steps[|steps| - 1]));
    }
  }

  lemma OpenedIsOk(config: Config)
    ensures Inv(Opened(config))
  {
  }

  /** However the commands interleave, the stored review is the replay of its log, which starts
      no earlier than the hold, and the event documents are that log. */
  lemma StoredIsReplay(config: Config, steps: seq<Step>)
    ensures var t := Run(Next, Opened(config), steps);
      && (HasReview(t) ==> Consistent(Stored(t)) && Replay(Log(t)) == Some(Stored(t).state))
      && (HasReview(t) ==> t.held.Some? && Log(t) != [] && forall i :: 0 <= i < |Log(t)| ==> t.held.value.heldAt <= Log(t)[i].at)
      && (forall n: nat :: EventId(n) in t.docs.docs <==> 1 <= n <= |Log(t)|)
      && (forall n: nat :: 1 <= n <= |Log(t)| ==> t.docs.docs[EventId(n)].body == EventDoc(Log(t)[n - 1]))
  {
    OpenedIsOk(config);
    HistoryOnlyGrows(Opened(config), steps);
    var t := Run(Next, Opened(config), steps);
    if HasReview(t) {
      FirstIsEarliest(Log(t));
    }
  }

  lemma {:induction false} FirstIsEarliest(events: seq<Event>)
    requires TimesOrdered(events)
    ensures forall i :: 0 <= i < |events| ==> events[0].at <= events[i].at
  {
    if |events| > 1 {
      var init := events[..|events| - 1];
      FirstIsEarliest(init);
      assert forall i :: 0 <= i < |init| ==> init[i] == events[i] && events[0].at <= events[i].at;
      assert events[|init| - 1].at <= events[|init|].at;
    }
  }

  /** The log only grows, and a closed case never changes again. */
  lemma ClosureIsFinal(config: Config, first: seq<Step>, second: seq<Step>)
    ensures var s, t := Run(Next, Opened(config), first), Run(Next, Opened(config), first + second);
      && Log(s) <= Log(t)
      && (HasReview(s) && Stored(s).state.ClosedWithoutRelease? ==> HasReview(t) && Stored(t) == Stored(s))
  {
    OpenedIsOk(config);
    HistoryOnlyGrows(Opened(config), first);
    RunAppend(Next, Opened(config), first, second);
    HistoryOnlyGrows(Run(Next, Opened(config), first), second);
  }

  /** A command that is in the log stays there once: no event with its id is ever added, and a
      call that reuses the id returns only if it sends the very same command. */
  lemma CommandsApplyOnce(config: Config, first: seq<Step>, second: seq<Step>, i: nat, a: nat)
    requires i < |Log(Run(Next, Opened(config), first))|
    ensures var s, t := Run(Next, Opened(config), first), Run(Next, Opened(config), first + second);
      && i < |Log(t)| && Log(t)[i] == Log(s)[i]
      && (forall j :: 0 <= j < |Log(t)| && Log(t)[j].command.id == Log(s)[i].command.id ==> j == i)
      && (a < |t.answers| && t.answers[a].command.id == Log(s)[i].command.id ==> t.answers[a].command == Log(s)[i].command)
  {
    var s, t := Run(Next, Opened(config), first), Run(Next, Opened(config), first + second);
    ClosureIsFinal(config, first, second);
    OpenedIsOk(config);
    HistoryOnlyGrows(Opened(config), first + second);
    assert IdsDistinct(Log(t));
    assert Log(t)[i] == Log(s)[i];
    if a < |t.answers| && t.answers[a].command.id == Log(s)[i].command.id {
      assert AnswerOk(t, t.answers[a]);
      var k :| 0 <= k < |t.answers[a].review.events| && t.answers[a].review.events[k].command == t.answers[a].command;
      assert Log(t)[k] == t.answers[a].review.events[k];
    }
  }

  /** Only the Operations user of the workflow's tenant ever acts, on a case of that tenant that is
      assigned to that very user: every event of the log and every answer is theirs. */
  lemma OnlyAssignedOperationsAct(config: Config, steps: seq<Step>)
    ensures var t := Run(Next, Opened(config), steps);
      && (forall i :: 0 <= i < |Log(t)| ==> Log(t)[i].actor == config.operations)
      && (forall a :: 0 <= a < |t.answers| ==> t.answers[a].sender.tenant == config.tenant && t.answers[a].sender.actor == config.operations)
      && (HasReview(t) ==>
            && t.held.Some? && t.held.value.tenant == config.tenant && t.held.value.assignee == config.operations
            && Stored(t).tenant == config.tenant && Stored(t).assignee == config.operations)
  {
    OpenedIsOk(config);
    HistoryOnlyGrows(Opened(config), steps);
    var t := Run(Next, Opened(config), steps);
    forall i | 0 <= i < |Log(t)| ensures Log(t)[i].actor == config.operations {
      assert BoundAt(Stored(t), i);
    }
    forall a | 0 <= a < |t.answers| ensures t.answers[a].sender.tenant == config.tenant && t.answers[a].sender.actor == config.operations {
      assert AnswerOk(t, t.answers[a]);
    }
  }

  /** A command leads to a new review exactly if it is for this case and this evidence, its id is
      new, it restates the current revision, the state allows its action, and the result is
      consistent; the new review holds one event more, of this caller at this moment. A command is
      repeated exactly if the event that has its id is that very command. */
  lemma JudgedExactlyWhen(current: Review, initial: Review, actor: nat, now: int, command: Command)
    ensures var j := Judge(current, initial, actor, now, command);
      var fits := SameBinding(current, initial) && command.caseId == current.caseId && command.hash == current.hash;
      var next := NextCaseState(current.state, command.action);
      && (j.Fresh? ==>
            j.updated == current.(revision := current.revision + 1, state := j.updated.state,
                                  events := current.events + [Event(current.revision + 1, actor, now, command)])
            && next == Some(j.updated.state))
      && (j.Fresh? <==>
            && fits && (forall i :: 0 <= i < |current.events| ==> current.events[i].command.id != command.id)
            && command.expected == current.revision && current.revision < 1000 && next.Some?
            && Consistent(Appended(current, actor, now, command, next.value)))
      && (IdsDistinct(current.events) ==>
            (j.Repeated? <==> fits && exists i :: 0 <= i < |current.events| && current.events[i].command == command))
  {
    hide Consistent, NextCaseState, SameBinding;
    FindIs(current.events, command.id);
  }

  /** Every successful call returned a consistent review that holds its command, and that the
      stored log continues. */
  lemma AnswersAreKept(config: Config, steps: seq<Step>, a: nat)
    requires a < |Run(Next, Opened(config), steps).answers|
    ensures var t := Run(Next, Opened(config), steps);
      && Consistent(t.answers[a].review) && t.answers[a].review.events <= Log(t)
      && exists i :: 0 <= i < |Log(t)| && Log(t)[i].command == t.answers[a].command
  {
    OpenedIsOk(config);
    HistoryOnlyGrows(Opened(config), steps);
    var t := Run(Next, Opened(config), steps);
    assert AnswerOk(t, t.answers[a]);
    var i :| 0 <= i < |t.answers[a].review.events| && t.answers[a].review.events[i].command == t.answers[a].command;
    assert Log(t)[i] == t.answers[a].review.events[i];
  }
}
