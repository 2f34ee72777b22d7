/** `CaseReviewController.act` as it runs: two reads, the scan of the log, and the commit, with
    the other callers running wherever the store is awaited. */
module CaseController {
  import opened Results
  import opened CaseReview
  import opened CaseDesk
  import opened DocumentStore
  import opened Traces

  datatype Failure = DeniedError | ConflictError | Unavailable

  /** What the other callers do at each point where this caller waits. */
  type Interference = nat -> seq<Step>

  ghost predicate LeavesMeAlone(me: nat, env: Interference) {
    forall n: nat, i :: 0 <= i < |env(n)| ==> env(n)[i].caller != me
  }

  lemma {:induction false} OthersLeaveMe(s: Desk, me: nat, steps: seq<Step>)
    requires forall i :: 0 <= i < |steps| ==> steps[i].caller != me
    ensures At(Run(Next, s, steps), me) == At(s, me) && Run(Next, s, steps).config == s.config
  {
    if steps != [] {
      OthersLeaveMe(s, me, steps[..|steps| - 1]);
      OtherLeavesMe(Run(Next, s, steps[..|steps| - 1]), me, steps[|steps| - 1]);
    }
  }

  lemma OtherLeavesMe(s: Desk, me: nat, step: Step)
    requires step.caller != me
    ensures At(Next(s, step), me) == At(s, me) && Next(s, step).config == s.config
  {
  }

  class Controller {
    const config: Config
    var held: Option<HeldCase>
    var docs: Partition<DocId, Doc>
    var callers: map<nat, Position>
    var answers: seq<Answer>

    constructor (config: Config)
      ensures State() == Opened(config)
    {
      this.config := config;
      held, docs, callers, answers := None, Partition(map[], 0), map[], [];
    }

    function State(): Desk
      reads this
    {
      Desk(config, held, docs, callers, answers)
    }

    method Await(me: nat, others: seq<Step>)
      requires forall i :: 0 <= i < |others| ==> others[i].caller != me
      modifies this
      ensures State() == Run(Next, old(State()), others)
      ensures At(State(), me) == old(At(State(), me))
    {
      OthersLeaveMe(State(), me, others);
      var s := Run(Next, State(), others);
      held, docs, callers, answers := s.held, s.docs, s.callers, s.answers;
    }

    /** The scan for a recorded command. */
    method Scan(events: seq<Event>, id: nat) returns (found: Option<Event>)
      ensures found == Find(events, id)
    {
      for i := 0 to |events|
        invariant Find(events, id) == Find(events[i..], id)
      {
        assert events[i..][1..] == events[i + 1..];
        if events[i].command.id == id {
          return Some(events[i]);
        }
      }
      return None;
    }

    /** The decision on the review that was read: an answer, a refusal, or a review to commit. */
    method Consider(current: Review, initial: Review, actor: nat, now: int, command: Command) returns (j: Judgement)
      ensures j == Judge(current, initial, actor, now, command)
    {
      hide Consistent, NextCaseState, Find;
      if !SameBinding(current, initial) || command.caseId != current.caseId || command.hash != current.hash {
        return Refused;
      }
      var found := Scan(current.events, command.id);
      if found.Some? {
        return if found.value.command != command then Refused else Repeated;
      }
      if command.expected != current.revision || current.revision >= 1000 {
        return Refused;
      }
      var state := NextCaseState(current.state, command.action);
      if state.None? {
        return Refused;
      }
      var event := Event(current.revision + 1, actor, now, command);
      var updated := current.(revision := current.revision + 1, state := state.value, events := current.events + [event]);
      var valid := Validate(updated);
      return if valid then Fresh(updated) else Refused;
    }

    method Act(me: nat, tenant: nat, actor: nat, command: Command, now: int, acked: bool, env: Interference)
      returns (r: Result<Review, Failure>, ghost trace: seq<Step>)
      requires LeavesMeAlone(me, env) && At(State(), me) == Idle
      modifies this
      ensures State() == Run(Next, old(State()), trace)
      ensures At(State(), me) == Idle
      ensures tenant != config.tenant || actor != config.operations ==> r == Err(DeniedError) && State() == old(State())
      ensures r.Ok? ==>
        old(held.Some?) && old(held).value.tenant == config.tenant && old(held).value.assignee == config.operations
      ensures r.Ok? ==> |answers| > 0 && answers[|answers| - 1] == Answer(Sender(tenant, actor), command, r.value)
      ensures r.Ok? && old(Inv(State())) ==> AnswerOk(State(), Answer(Sender(tenant, actor), command, r.value))
    {
      hide Inv, Next, Judge, AnswerOk, Run, Consistent, SameBinding, NextCommit, NextStore;
      NoSteps(State());
      trace := [];
      if tenant != config.tenant || actor != config.operations || held.None?
         || held.value.tenant != config.tenant || held.value.assignee != config.operations || !Explained(command) || command.expected < 0 {
        return Err(DeniedError), trace;
      }
      ghost var s0 := State();
      var initial := Initial(config, held.value);
      var sender := Sender(tenant, actor);
      callers := callers[me := Reading(sender, command, initial)];
      LoadIs(s0, me, tenant, actor, command);
      RunExtend(Next, s0, s0, [], [], s0, Step(me, ActLoad(tenant, actor, command)));
      trace := [] + [] + [Step(me, ActLoad(tenant, actor, command))];

      ghost var s1 := State();
      Await(me, env(0));
      ghost var s2 := State();
      var current := if HasReview(State()) then docs.docs[ReviewId].body.review else initial;
      var judgement := Consider(current, initial, actor, now, command);
      ReadIs(s2, me, now);
      RunExtend(Next, s0, s1, trace, env(0), s2, Step(me, ActRead(now)));
      trace := trace + env(0) + [Step(me, ActRead(now))];
      match judgement {
        case Refused =>
          callers := callers[me := Idle];
          return Err(ConflictError), trace;
        case Repeated =>
          answers := answers + [Answer(sender, command, current)];
          callers := callers[me := Idle];
          AnswersAlong(s0, trace);
          return Ok(current), trace;
        case Fresh(updated) =>
          callers := callers[me := Committing(sender, command, updated)];
          ghost var more;
          r, more := Commit(me, sender, command, updated, acked, env);
          ghost var s3 := Run(Next, s0, trace);
          RunAppend(Next, s0, trace, more);
          trace := trace + more;
          AnswersAlong(s0, trace);
      }
    }

    /** `commit_review`: the review must bind to the held case and follow the stored one. */
    method Commit(me: nat, sender: Sender, command: Command, review: Review, acked: bool, env: Interference)
      returns (r: Result<Review, Failure>, ghost trace: seq<Step>)
      requires LeavesMeAlone(me, env) && At(State(), me) == Committing(sender, command, review)
      modifies this
      ensures State() == Run(Next, old(State()), trace)
      ensures At(State(), me) == Idle
      ensures r.Ok? ==> r.value == review && |answers| > 0 && answers[|answers| - 1] == Answer(sender, command, review)
    {
      hide Next, Admits, Batch, Inv, Run, Consistent, SameBinding;
      ghost var s0 := State();
      Await(me, env(1));
      ghost var s1 := State();
      CommitIs(s1, me);
      NoSteps(s0);
      RunExtend(Next, s0, s0, [], env(1), s1, Step(me, CommitLoad));
      trace := [] + env(1) + [Step(me, CommitLoad)];
      var valid := Validate(review);
      if !valid || review.events == [] || held.None? || !SameBinding(review, Initial(config, held.value))
         || review.events[0].at < held.value.heldAt {
        callers := callers[me := Idle];
        return Err(ConflictError), trace;
      }
      var etag := 0;
      if review.revision != 1 {
        if !HasReview(State()) || docs.docs[ReviewId].body.review.revision != review.revision - 1
           || docs.docs[ReviewId].body.review.events != review.events[..|review.events| - 1] {
          callers := callers[me := Idle];
          return Err(ConflictError), trace;
        }
        etag := docs.docs[ReviewId].etag;
      }
      callers := callers[me := Submitting(sender, command, review, etag)];
      ghost var s2 := State();
      Await(me, env(2));
      ghost var s3 := State();
      StoreIs(s3, me, acked);
      RunExtend(Next, s0, s2, trace, env(2), s3, Step(me, CommitStore(acked)));
      trace := trace + env(2) + [Step(me, CommitStore(acked))];
      callers := callers[me := Idle];
      var operations := CommitWrites(review, etag);
      if !Admits(docs, operations) {
        return Err(ConflictError), trace;
      }
      docs := Batch(docs, operations);
      if !acked {
        assert s3.answers + [] == s3.answers;
        return Err(Unavailable), trace;
      }
      answers := answers + [Answer(sender, command, review)];
      return Ok(review), trace;
    }
  }

  lemma NoSteps(s: Desk)
    ensures Run(Next, s, []) == s
  {
  }

  lemma LoadIs(s: Desk, me: nat, tenant: nat, actor: nat, command: Command)
    requires At(s, me) == Idle
    ensures Next(s, Step(me, ActLoad(tenant, actor, command))) == NextLoad(s, me, tenant, actor, command)
  {
  }

  lemma ReadIs(s: Desk, me: nat, now: int)
    requires At(s, me).Reading?
    ensures Next(s, Step(me, ActRead(now))) == NextRead(s, me, At(s, me), now)
  {
  }

  lemma CommitIs(s: Desk, me: nat)
    requires At(s, me).Committing?
    ensures Next(s, Step(me, CommitLoad)) == NextCommit(s, me, At(s, me))
  {
  }

  lemma StoreIs(s: Desk, me: nat, acked: bool)
    requires At(s, me).Submitting?
    ensures Next(s, Step(me, CommitStore(acked))) == NextStore(s, me, At(s, me), acked)
  {
  }

  lemma AnswersAlong(s: Desk, steps: seq<Step>)
    ensures var t := Run(Next, s, steps); Inv(s) && |t.answers| > 0 ==> AnswerOk(t, t.answers[|t.answers| - 1])
  {
    if Inv(s) {
      HistoryOnlyGrows(s, steps);
    }
  }
}
