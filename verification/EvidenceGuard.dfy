/** The guard in front of the team: the closures that its branches run, over one failure latch. */
module EvidenceGuard {
  import opened Results
  import opened Traces
  import opened EvidenceTeam
  import Broker = EvidenceBroker
  import Safety = EvidenceSafety
  import Toolbox = EvidenceToolbox

  /** What the other branch, the toolboxes and the broker do at each point where a branch waits. */
  type Meanwhile = nat -> seq<TeamStep>

  /** Only the branch of a role concludes for it. */
  predicate Concludes(step: TeamStep, role: Broker.Role) {
    (step.Conclude? || step.Leave? || step.Break?) && step.role == role
  }

  ghost predicate LeavesBranchAlone(role: Broker.Role, env: Meanwhile) {
    forall n: nat, i :: 0 <= i < |env(n)| ==> !Concludes(env(n)[i], role)
  }

  lemma {:induction false} BranchStays(s: Team, role: Broker.Role, steps: seq<TeamStep>)
    requires forall i :: 0 <= i < |steps| ==> !Concludes(steps[i], role)
    requires TeamInv(s) && (PhaseOf(s, role).Investigating? || PhaseOf(s, role).Leaving?)
    ensures PhaseOf(Run(Next, s, steps), role) == PhaseOf(s, role)
  {
    hide TeamInv, Next;
    if steps != [] {
      var t := Run(Next, s, steps[..|steps| - 1]);
      BranchStays(s, role, steps[..|steps| - 1]);
      TeamAlong(s, steps[..|steps| - 1]);
      StepLeavesBranch(t, role, steps[|steps| - 1]);
    }
  }

  lemma StepLeavesBranch(s: Team, role: Broker.Role, step: TeamStep)
    requires TeamInv(s) && !Concludes(step, role) && (PhaseOf(s, role).Investigating? || PhaseOf(s, role).Leaving?)
    ensures PhaseOf(Next(s, step), role) == PhaseOf(s, role)
  {
    hide Toolbox.DeskInv, Convincing, Toolbox.Next;
  }

  lemma NoTeamSteps(s: Team)
    ensures Run(Next, s, []) == s
  {
  }

  class EvidenceTeamGuard {
    var desk: Toolbox.Desk
    var toolboxes: seq<Broker.Role>
    var phases: map<Broker.Role, Phase>
    var completed: map<Broker.Role, seq<nat>>
    var failed: bool
    var proposal: Option<map<Broker.Role, seq<nat>>>

    constructor (binding: Broker.Binding, firstHandle: nat, secondHandle: nat)
      ensures State() == Start(binding, firstHandle, secondHandle) && TeamInv(State())
    {
      StartOk(binding, firstHandle, secondHandle);
      desk := Toolbox.Opening(binding, firstHandle, secondHandle);
      toolboxes, phases, completed, failed, proposal := [], map[], map[], false, None;
    }

    function State(): Team
      reads this
    {
      Team(desk, toolboxes, phases, completed, failed, proposal)
    }

    /** The rest of the team goes on; the branch of this role stays where it is. */
    method Await(role: Broker.Role, others: seq<TeamStep>)
      requires forall i :: 0 <= i < |others| ==> !Concludes(others[i], role)
      requires TeamInv(State()) && (PhaseOf(State(), role).Investigating? || PhaseOf(State(), role).Leaving?)
      modifies this
      ensures State() == Run(Next, old(State()), others) && TeamInv(State())
      ensures PhaseOf(State(), role) == old(PhaseOf(State(), role))
    {
      hide TeamInv, Next, Run;
      BranchStays(State(), role, others);
      TeamAlong(State(), others);
      var s := Run(Next, State(), others);
      desk, toolboxes, phases, completed, failed, proposal := s.desk, s.toolboxes, s.phases, s.completed, s.failed, s.proposal;
    }

    /** One branch: reserved before anything is awaited, then run. None is any exception. */
    method Investigate(role: Broker.Role, asked: int, ran: bool, usable: bool, answered: int, clean: bool, env: Meanwhile)
      returns (r: Option<seq<nat>>, ghost trace: seq<TeamStep>)
      requires TeamInv(State()) && Safety.InPack(desk.broker.binding, role) && LeavesBranchAlone(role, env)
      modifies this
      ensures State() == Run(Next, old(State()), trace) && TeamInv(State())
      ensures r.None? ==> failed
      ensures r.Some? ==> !old(failed) && role !in old(toolboxes) && asked < old(desk).broker.binding.expiresAt
      ensures r.Some? ==> ran && usable && clean && answered < old(desk).broker.binding.expiresAt
      ensures r.Some? ==> role in completed && completed[role] == r.value && Proven(State(), role, r.value)
    {
      hide TeamInv, Convincing, Proven, Toolbox.Next, Run;
      ghost var s0 := State();
      RunOne(Next, s0, TeamStep.Investigate(role, asked));
      trace := [TeamStep.Investigate(role, asked)];
      TeamAlong(s0, trace);
      if failed || role in toolboxes || asked >= desk.broker.binding.expiresAt {
        failed := true;
        return None, trace;
      }
      toolboxes := toolboxes + [role];
      phases := phases[role := Investigating];
      ghost var s1 := State();
      ghost var more;
      r, more := RunAgent(role, ran, usable, answered, clean, env);
      RunAppend(Next, s0, trace, more);
      trace := trace + more;
    }

    /** The agent's run, and what it must have left in its toolbox. */
    method RunAgent(role: Broker.Role, ran: bool, usable: bool, answered: int, clean: bool, env: Meanwhile)
      returns (r: Option<seq<nat>>, ghost trace: seq<TeamStep>)
      requires TeamInv(State()) && LeavesBranchAlone(role, env) && PhaseOf(State(), role).Investigating?
      modifies this
      ensures State() == Run(Next, old(State()), trace) && TeamInv(State())
      ensures r.None? ==> failed
      ensures r.Some? ==> ran && usable && clean && answered < old(desk).broker.binding.expiresAt
      ensures r.Some? ==> role in completed && completed[role] == r.value && Proven(State(), role, r.value)
    {
      hide TeamInv, Convincing, Proven, Toolbox.Next, Run;
      ghost var s0 := State();
      NoTeamSteps(s0);
      Await(role, env(0));
      ghost var s1 := State();
      if !ran || !Toolbox.ClientOf(desk, role).line.Free? {
        RunExtend(Next, s0, s0, [], env(0), s1, Break(role));
        trace := [] + env(0) + [Break(role)];
        TeamAlong(s0, trace);
        phases, failed := phases[role := Ended], true;
        return None, trace;
      }
      RunExtend(Next, s0, s0, [], env(0), s1, Conclude(role, usable, answered));
      trace := [] + env(0) + [Conclude(role, usable, answered)];
      TeamAlong(s0, trace);
      var toolbox := Toolbox.ClientOf(desk, role);
      if !usable || failed || answered >= desk.broker.binding.expiresAt || !Convincing(toolbox, role, desk.broker.binding.pack) {
        phases, failed := phases[role := Ended], true;
        return None, trace;
      }
      phases := phases[role := Leaving(toolbox.receiptIds)];
      ghost var s2 := State();
      ghost var more;
      r, more := CloseConnection(role, toolbox.receiptIds, clean, env);
      RunAppend(Next, s0, trace, more);
      trace := trace + more;
    }

    /** The result counts once its connection has closed. */
    method CloseConnection(role: Broker.Role, proof: seq<nat>, clean: bool, env: Meanwhile)
      returns (r: Option<seq<nat>>, ghost trace: seq<TeamStep>)
      requires TeamInv(State()) && LeavesBranchAlone(role, env) && PhaseOf(State(), role) == Leaving(proof)
      modifies this
      ensures State() == Run(Next, old(State()), trace) && TeamInv(State())
      ensures r.None? ==> failed
      ensures r.Some? ==> clean
      ensures r.Some? ==> role in completed && completed[role] == r.value && Proven(State(), role, r.value)
    {
      hide TeamInv, Convincing, Proven, Toolbox.Next, Run;
      ghost var s0 := State();
      NoTeamSteps(s0);
      Await(role, env(1));
      ghost var s1 := State();
      RunExtend(Next, s0, s0, [], env(1), s1, Leave(role, clean));
      trace := [] + env(1) + [Leave(role, clean)];
      TeamAlong(s0, trace);
      phases := phases[role := Ended];
      if clean {
        completed := completed[role := proof];
        CompletedIsProven(State(), role);
        r := Some(proof);
      } else {
        failed := true;
        r := None;
      }
    }

    /** The coordinator's answer is only an acknowledgement: what is proposed is assembled here. */
    method Check(echoed: bool, named: set<Broker.Role>, now: int) returns (r: Option<map<Broker.Role, seq<nat>>>)
      requires TeamInv(State())
      modifies this
      ensures State() == Next(old(State()), TeamStep.Check(echoed, named, now)) && TeamInv(State())
      ensures r.Some? <==>
        && !failed && echoed && now < desk.broker.binding.expiresAt
        && completed.Keys == named == {Broker.FirstRole(desk.broker.binding.pack), Broker.SecondRole(desk.broker.binding.pack)}
      ensures r.Some? ==> r == proposal == Some(completed)
    {
      hide TeamInv, Broker.Distinct;
      if completed.Keys == {Broker.FirstRole(desk.broker.binding.pack), Broker.SecondRole(desk.broker.binding.pack)} {
        CompletedAreApart(State());
      }
      NextKeepsTeam(State(), TeamStep.Check(echoed, named, now));
      if Proposable(State(), echoed, named, now) {
        proposal := Some(completed);
        r := proposal;
      } else {
        r := None;
      }
    }
  }

  lemma CompletedIsProven(s: Team, role: Broker.Role)
    requires TeamInv(s) && role in s.completed
    ensures Proven(s, role, s.completed[role])
  {
    hide Toolbox.DeskInv, Convincing;
  }
}
