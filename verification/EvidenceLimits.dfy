/** A proposal that the broker refuses: the team asks that every tool was used, the broker that
    every document was analysed. */
module EvidenceLimits {
  import opened Results
  import opened DocumentStore
  import opened EvidenceBroker
  import opened EvidenceSafety
  import opened EvidenceToolbox
  import opened EvidenceTeam
  import opened Traces
  import Budget = EvidenceBudget

  // ---------------------------------------------------------------- one tool call

  /** A toolbox at rest and its scope, as far as both have been used. */
  ghost predicate Ready(d: Desk, role: Role, calls: nat) {
    && DeskInv(d) && InPack(d.broker.binding, role) && HasScope(d.broker.docs, role)
    && !ClientOf(d, role).failed && ClientOf(d, role).line.Free? && ClientOf(d, role).calls == calls
    && ScopeOf(d.broker.docs, role).state.Open? && ScopeOf(d.broker.docs, role).calls == calls
  }

  function CallMoves(role: Role, tool: Tool, args: Arguments, now: int, id: nat): seq<Move> {
    [Ask(role, tool, args, now), Forward(role, now), Serve(role, CallReserve(true)), Serve(role, CallConfirm),
     Serve(role, CallRead(Some(0), now, id)), Serve(role, CallStore(true)), Receive(role, true, now)]
  }

  predicate Callable(d: Desk, role: Role, tool: Tool, args: Arguments, now: int, id: nat) {
    && tool in Allowed(role) && ArgumentsFit(tool, args, d.broker.binding.documents) && now < d.broker.binding.expiresAt
    && ReceiptId(id) !in d.broker.docs.docs
  }

  lemma WorkerIdle(d: Desk, role: Role, calls: nat)
    requires Ready(d, role, calls)
    ensures At(d.broker, Worker(role)).Idle? && role in d.broker.handles && d.broker.handles[role] == ScopeOf(d.broker.docs, role).handle
    ensures |ClientOf(d, role).receiptIds| == |ScopeOf(d.broker.docs, role).receipts|
    ensures forall id :: id in ClientOf(d, role).receiptIds ==> ReceiptId(id) in d.broker.docs.docs
  {
    hide ReceiptsOk, OneOwner, Ends, PositionOk, CallsServed;
    assert Agrees(d, role) && ScopeOk(d.broker, role);
    var c := ClientOf(d, role);
    forall id | id in c.receiptIds ensures ReceiptId(id) in d.broker.docs.docs {
      var i :| 0 <= i < |c.receiptIds| && c.receiptIds[i] == id;
    }
  }

  lemma FitsIsShaped(tool: Tool, args: Arguments, documents: set<nat>)
    requires ArgumentsFit(tool, args, documents)
    ensures Shaped(tool, args)
  {
  }

  /** The desk after the seven moves: the broker has made its six steps, the toolbox has the receipt. */
  lemma SevenMoves(d: Desk, role: Role, tool: Tool, args: Arguments, now: int, id: nat, moves: seq<Move>, steps: seq<Step>)
    requires moves == CallMoves(role, tool, args, now, id)
    requires ClientOf(d, role).line.Free? && !ClientOf(d, role).failed && ClientOf(d, role).calls < CALL_BUDGET && now < d.broker.binding.expiresAt
    requires tool in Allowed(role) && Shaped(tool, args) && At(d.broker, Worker(role)).Idle? && role in d.broker.handles
    requires steps == Budget.CallAlone(d.broker.binding, Worker(role), d.broker.handles[role], Request(role, tool, args), now, id)
    requires At(Budget.BeforeReturn(d.broker, steps), Worker(role)).Answered?
    requires Budget.BeforeReturn(d.broker, steps).binding == d.broker.binding
    ensures var c := ClientOf(d, role).(calls := ClientOf(d, role).calls + 1, line := Sent(Request(role, tool, args)));
      var t := Served(d, steps[0]);
      Run(EvidenceToolbox.Next, d, moves)
        == Desk(EvidenceBroker.Next(Budget.BeforeReturn(d.broker, steps), steps[5]),
                d.clients[role := Accepting(c, Request(role, tool, args), At(Budget.BeforeReturn(d.broker, steps), Worker(role)).result, now, d.broker.binding.expiresAt)])
  {
    hide EvidenceBroker.Next, Allowed, Shaped;
    var c := ClientOf(d, role);
    var request := Request(role, tool, args);
    var d1 := WithClient(d, role, c.(calls := c.calls + 1, line := Asked(request)));
    assert EvidenceToolbox.Next(d, moves[0]) == d1;
    var b1 := EvidenceBroker.Next(d.broker, steps[0]);
    var d2 := Desk(b1, d.clients[role := c.(calls := c.calls + 1, line := Sent(request))]);
    assert EvidenceToolbox.Next(d1, moves[1]) == d2;
    var b2 := EvidenceBroker.Next(b1, steps[1]);
    var b3 := EvidenceBroker.Next(b2, steps[2]);
    var b4 := EvidenceBroker.Next(b3, steps[3]);
    var b5 := EvidenceBroker.Next(b4, steps[4]);
    assert EvidenceToolbox.Next(d2, moves[2]) == d2.(broker := b2);
    assert EvidenceToolbox.Next(d2.(broker := b2), moves[3]) == d2.(broker := b3);
    assert EvidenceToolbox.Next(d2.(broker := b3), moves[4]) == d2.(broker := b4);
    assert EvidenceToolbox.Next(d2.(broker := b4), moves[5]) == d2.(broker := b5);
    RunOf7(d, moves);
  }

  lemma RunOf7(d: Desk, moves: seq<Move>)
    requires |moves| == 7
    ensures Run(EvidenceToolbox.Next, d, moves) ==
      EvidenceToolbox.Next(EvidenceToolbox.Next(EvidenceToolbox.Next(EvidenceToolbox.Next(EvidenceToolbox.Next(EvidenceToolbox.Next(EvidenceToolbox.Next(d,
        moves[0]), moves[1]), moves[2]), moves[3]), moves[4]), moves[5]), moves[6])
  {
    hide EvidenceToolbox.Next;
    assert moves[..0] == [] && moves[..7] == moves;
    RunUpTo(EvidenceToolbox.Next, d, moves, 0);
    RunUpTo(EvidenceToolbox.Next, d, moves, 1);
    RunUpTo(EvidenceToolbox.Next, d, moves, 2);
    RunUpTo(EvidenceToolbox.Next, d, moves, 3);
    RunUpTo(EvidenceToolbox.Next, d, moves, 4);
    RunUpTo(EvidenceToolbox.Next, d, moves, 5);
    RunUpTo(EvidenceToolbox.Next, d, moves, 6);
  }

  /** An undisturbed call adds its receipt to the toolbox and to the scope. */
  lemma CallsTool(d: Desk, role: Role, calls: nat, tool: Tool, args: Arguments, now: int, id: nat) returns (t: Desk)
    requires Ready(d, role, calls) && calls < CALL_BUDGET && Callable(d, role, tool, args, now, id)
    ensures t == Run(EvidenceToolbox.Next, d, CallMoves(role, tool, args, now, id))
    ensures var r := Budget.ReceiptFor(d.broker.binding, Request(role, tool, args), now, id);
      && ClientOf(t, role) == ClientOf(d, role).(calls := calls + 1, receiptIds := ClientOf(d, role).receiptIds + [id], results := ClientOf(d, role).results + [r])
      && (forall other :: other != role ==> ClientOf(t, other) == ClientOf(d, other))
      && Budget.Added(d.broker, t.broker, Worker(role), r)
  {
    hide EvidenceBroker.Next, EvidenceToolbox.Next, Run, Allowed, ArgumentsFit, Shaped;
    var request := Request(role, tool, args);
    WorkerIdle(d, role, calls);
    FitsIsShaped(tool, args, d.broker.binding.documents);
    ReadyFacts(d, role, calls);
    assert Budget.Usable(d.broker, request, now);
    Budget.CallAdds(d.broker, Worker(role), request, now, id);
    Budget.CallAnswers(d.broker, Worker(role), request, now, id);
    var steps := Budget.CallAlone(d.broker.binding, Worker(role), d.broker.handles[role], request, now, id);
    Budget.SixSteps(d.broker, steps);
    SevenMoves(d, role, tool, args, now, id, CallMoves(role, tool, args, now, id), steps);
    t := Run(EvidenceToolbox.Next, d, CallMoves(role, tool, args, now, id));
  }

  lemma ReadyFacts(d: Desk, role: Role, calls: nat)
    requires Ready(d, role, calls)
    ensures Inv(d.broker) && InPack(d.broker.binding, role)
  {
  }

  // ---------------------------------------------------------------- one specialist

  /** What a toolbox holds after a list of calls. */
  ghost predicate Holding(d: Desk, role: Role, requests: seq<Request>, now: int, first: nat) {
    && Ready(d, role, |requests|) && Budget.Unused(d.broker.docs, first + |requests|)
    && ClientOf(d, role).receiptIds == Budget.IdsFrom(first, |requests|)
    && ClientOf(d, role).results == Budget.ReceiptsFor(d.broker.binding, requests, now, first)
  }

  /** The other scopes and toolboxes are as they were. */
  ghost predicate Elsewhere(d: Desk, t: Desk, role: Role) {
    && t.broker.binding == d.broker.binding
    && (forall other :: other != role ==> ClientOf(t, other) == ClientOf(d, other))
    && (forall other :: other != role && HasScope(d.broker.docs, other) ==> HasScope(t.broker.docs, other) && ScopeOf(t.broker.docs, other) == ScopeOf(d.broker.docs, other))
  }

  predicate ByRole(moves: seq<Move>, role: Role) {
    forall i :: 0 <= i < |moves| ==> !moves[i].Other? && !moves[i].Cancel? && moves[i].role == role
  }

  lemma {:induction false} CallsAll(d: Desk, role: Role, requests: seq<Request>, now: int, first: nat) returns (t: Desk, moves: seq<Move>)
    requires Ready(d, role, 0) && ClientOf(d, role) == FRESH && Budget.Fits(d.broker.binding, role, requests) && now < d.broker.binding.expiresAt
    requires |requests| <= CALL_BUDGET && Budget.Unused(d.broker.docs, first)
    ensures t == Run(EvidenceToolbox.Next, d, moves) && ByRole(moves, role)
    ensures Holding(t, role, requests, now, first) && Elsewhere(d, t, role)
  {
    hide DeskInv, EvidenceToolbox.Next, Run, Allowed, ArgumentsFit;
    if requests == [] {
      moves, t := [], d;
      NoMoves(d);
      assert Budget.IdsFrom(first, 0) == [];
    } else {
      var n := |requests| - 1;
      var init, last := requests[..n], requests[n];
      var u, before;
      u, before := CallsAll(d, role, init, now, first);
      assert |init| == n && Budget.Unused(u.broker.docs, first + n);
      assert first <= first + n && ReceiptId(first + n) !in u.broker.docs.docs;
      t := CallsTool(u, role, n, last.tool, last.args, now, first + n);
      var more := CallMoves(role, last.tool, last.args, now, first + n);
      moves := before + more;
      RunAppend(EvidenceToolbox.Next, d, before, more);
      StillDesk(u, more, role);
      OneMoreHeld(u, t, role, requests, now, first);
      OnlyThere(u, t, role, last, now, first + n);
    }
  }

  lemma NoMoves(d: Desk)
    ensures Run(EvidenceToolbox.Next, d, []) == d
  {
  }

  lemma StillDesk(d: Desk, moves: seq<Move>, role: Role)
    requires DeskInv(d) && InPack(d.broker.binding, role) && ByRole(moves, role)
    ensures DeskInv(Run(EvidenceToolbox.Next, d, moves)) && Run(EvidenceToolbox.Next, d, moves).broker.binding == d.broker.binding
  {
    hide DeskInv, EvidenceToolbox.Next, Run;
    DeskAlong(d, moves);
  }

  lemma OneMoreHeld(u: Desk, t: Desk, role: Role, requests: seq<Request>, now: int, first: nat)
    requires |requests| > 0 && requests[|requests| - 1].role == role
    requires var n := |requests| - 1; var last := requests[n]; var r := Budget.ReceiptFor(u.broker.binding, Request(role, last.tool, last.args), now, first + n);
      && Holding(u, role, requests[..n], now, first) && DeskInv(t) && t.broker.binding == u.broker.binding
      && ClientOf(t, role) == ClientOf(u, role).(calls := n + 1, receiptIds := ClientOf(u, role).receiptIds + [first + n], results := ClientOf(u, role).results + [r])
      && Budget.Added(u.broker, t.broker, Worker(role), r)
    ensures Holding(t, role, requests, now, first)
  {
    hide DeskInv;
    var n := |requests| - 1;
    assert |requests[..n]| == n && Budget.Unused(u.broker.docs, first + n);
    assert Budget.IdsFrom(first, n + 1) == Budget.IdsFrom(first, n) + [first + n];
    assert Budget.ReceiptsFor(u.broker.binding, requests, now, first)
        == Budget.ReceiptsFor(u.broker.binding, requests[..n], now, first) + [Budget.ReceiptFor(u.broker.binding, requests[n], now, first + n)];
    forall id: nat | first + n + 1 <= id ensures ReceiptId(id) !in t.broker.docs.docs {
      assert ReceiptId(id) !in u.broker.docs.docs;
    }
    assert Budget.Unused(t.broker.docs, first + |requests|);
  }

  lemma OnlyThere(u: Desk, t: Desk, role: Role, last: Request, now: int, id: nat)
    requires forall other :: other != role ==> ClientOf(t, other) == ClientOf(u, other)
    requires Budget.Added(u.broker, t.broker, Worker(role), Budget.ReceiptFor(u.broker.binding, Request(role, last.tool, last.args), now, id))
    ensures Elsewhere(u, t, role)
  {
    forall other | other != role && HasScope(u.broker.docs, other) ensures HasScope(t.broker.docs, other) && ScopeOf(t.broker.docs, other) == ScopeOf(u.broker.docs, other) {
      assert ScopeId(other) in u.broker.docs.docs;
    }
  }

  // ---------------------------------------------------------------- the team

  function AsWork(moves: seq<Move>): seq<TeamStep> {
    seq(|moves|, i requires 0 <= i < |moves| => Work(moves[i]))
  }

  /** While a specialist's agent runs, its calls are moves of the desk. */
  lemma {:induction false} TeamWorks(s: Team, moves: seq<Move>, role: Role)
    requires InPack(s.desk.broker.binding, role) && PhaseOf(s, role).Investigating? && ByRole(moves, role)
    ensures Run(EvidenceTeam.Next, s, AsWork(moves)) == s.(desk := Run(EvidenceToolbox.Next, s.desk, moves))
    ensures Run(EvidenceToolbox.Next, s.desk, moves).broker.binding == s.desk.broker.binding
  {
    hide EvidenceToolbox.Next;
    if moves != [] {
      var n := |moves| - 1;
      TeamWorks(s, moves[..n], role);
      assert AsWork(moves)[..n] == AsWork(moves[..n]);
      BindingStays(Run(EvidenceToolbox.Next, s.desk, moves[..n]), moves[n]);
    }
  }

  /** A team at work, its next specialist not started. */
  ghost predicate Fresh(s: Team, role: Role, first: nat, now: int) {
    && TeamInv(s) && InPack(s.desk.broker.binding, role) && role !in s.toolboxes && !s.failed && s.proposal.None?
    && Ready(s.desk, role, 0) && ClientOf(s.desk, role) == FRESH
    && Budget.Unused(s.desk.broker.docs, first) && now < s.desk.broker.binding.expiresAt
  }

  lemma TeamThen(s: Team, t: Team, steps: seq<TeamStep>, step: TeamStep)
    requires t == Run(EvidenceTeam.Next, s, steps) && TeamInv(t)
    ensures EvidenceTeam.Next(t, step) == Run(EvidenceTeam.Next, s, steps + [step]) && TeamInv(EvidenceTeam.Next(t, step))
  {
    hide TeamInv, EvidenceTeam.Next;
    NextKeepsTeam(t, step);
    RunOne(EvidenceTeam.Next, t, step);
    RunAppend(EvidenceTeam.Next, s, steps, [step]);
  }

  /** One specialist from its start to its recorded result. */
  lemma Specialist(s: Team, u: Team, before: seq<TeamStep>, role: Role, d: nat, now: int, first: nat) returns (t: Team, steps: seq<TeamStep>)
    requires u == Run(EvidenceTeam.Next, s, before) && Fresh(u, role, first, now) && d in u.desk.broker.binding.documents
    ensures t == Run(EvidenceTeam.Next, s, steps) && TeamInv(t) && !t.failed && t.proposal.None?
    ensures t.completed.Keys == u.completed.Keys + {role} && t.toolboxes == u.toolboxes + [role]
    ensures Holding(t.desk, role, Budget.Plan(role, [d]), now, first) && Elsewhere(u.desk, t.desk, role)
  {
    hide TeamInv, DeskInv, EvidenceToolbox.Next, Run, Budget.Plan, Holding, Elsewhere, Allowed;
    var requests := Budget.Plan(role, [d]);
    Budget.PlanFits(u.desk.broker.binding, role, [d]);
    PlanSize(role, d);
    TeamThen(s, u, before, Investigate(role, now));
    steps, t := before + [Investigate(role, now)], Enter(u, role, Investigating).(toolboxes := u.toolboxes + [role]);
    var desk, moves := CallsAll(u.desk, role, requests, now, first);
    TeamWorks(t, moves, role);
    RunAppend(EvidenceTeam.Next, s, steps, AsWork(moves));
    TeamAlong(t, AsWork(moves));
    steps, t := steps + AsWork(moves), t.(desk := desk);
    ElsewhereBinding(u.desk, desk, role);
    HoldingConvinces(desk, role, d, now, first);
    var ids := ClientOf(desk, role).receiptIds;
    TeamThen(s, t, steps, Conclude(role, true, now));
    steps, t := steps + [Conclude(role, true, now)], Enter(t, role, Leaving(ids));
    TeamThen(s, t, steps, Leave(role, true));
    steps, t := steps + [Leave(role, true)], Enter(t, role, Ended).(completed := t.completed[role := ids]);
  }

  lemma ElsewhereBinding(d: Desk, t: Desk, role: Role)
    requires Elsewhere(d, t, role)
    ensures t.broker.binding == d.broker.binding
  {
  }

  lemma PlanSize(role: Role, d: nat)
    ensures 1 <= |Budget.Plan(role, [d])| <= CALL_BUDGET
    ensures role.DocumentAnalyst? || role.EquipmentService? ==> |Budget.Plan(role, [d])| == 2
  {
  }

  lemma HoldingConvinces(t: Desk, role: Role, d: nat, now: int, first: nat)
    requires Holding(t, role, Budget.Plan(role, [d]), now, first) && d in t.broker.binding.documents
    ensures ClientOf(t, role).line.Free? && Convincing(ClientOf(t, role), role, t.broker.binding.pack)
  {
    hide DeskInv, Budget.Plan, Budget.ReceiptsFor, Budget.Unused, ToolsOf, Allowed, IdsOf;
    PlanSize(role, d);
    PackRole(t.broker.binding, role);
    PlanTools(t.broker.binding, role, d, now, first);
  }

  lemma PlanTools(b: Binding, role: Role, d: nat, now: int, first: nat)
    requires d in b.documents
    ensures var found := Budget.ReceiptsFor(b, Budget.Plan(role, [d]), now, first);
      ToolsOf(found) == Allowed(role) && IdsOf(found) == Budget.IdsFrom(first, |Budget.Plan(role, [d])|)
  {
    hide Budget.Plan, Budget.Fits, Allowed, ToolsOf;
    Budget.PlanFits(b, role, [d]);
    ToolsFit(b, role, Budget.Plan(role, [d]), now, first);
    ToolsUsed(b, role, d, now, first);
  }

  lemma ToolsFit(b: Binding, role: Role, requests: seq<Request>, now: int, first: nat)
    requires Budget.Fits(b, role, requests)
    ensures ToolsOf(Budget.ReceiptsFor(b, requests, now, first)) <= Allowed(role)
  {
    hide Allowed, ArgumentsFit;
    var found := Budget.ReceiptsFor(b, requests, now, first);
    forall tool | tool in ToolsOf(found) ensures tool in Allowed(role) {
      var i :| 0 <= i < |found| && found[i].tool == tool;
      assert requests[i].tool in Allowed(role);
    }
  }

  lemma ToolsUsed(b: Binding, role: Role, d: nat, now: int, first: nat)
    ensures Allowed(role) <= ToolsOf(Budget.ReceiptsFor(b, Budget.Plan(role, [d]), now, first))
  {
    hide Budget.Plan, Allowed;
    var found := Budget.ReceiptsFor(b, Budget.Plan(role, [d]), now, first);
    forall tool | tool in Allowed(role) ensures tool in ToolsOf(found) {
      var i := Budget.PlanUses(role, [d], tool);
      assert found[i] in found;
    }
  }

  lemma PackRole(binding: Binding, role: Role)
    requires InPack(binding, role)
    ensures binding.pack.CertificateFulfilment? ==> role.DocumentAnalyst? || role.EquipmentService?
  {
  }

  // ---------------------------------------------------------------- when every proposal is covered

  lemma StartIsFresh(binding: Binding, h1: nat, h2: nat, now: int)
    requires now < binding.expiresAt
    ensures var s := Start(binding, h1, h2); var r1, r2 := FirstRole(binding.pack), SecondRole(binding.pack);
      && Fresh(s, r1, 0, now) && s.completed == map[] && s.desk.broker.binding == binding && r1 != r2
      && ClientOf(s.desk, r2) == FRESH && r2 !in s.toolboxes
      && HasScope(s.desk.broker.docs, r2) && ScopeOf(s.desk.broker.docs, r2).state.Open? && ScopeOf(s.desk.broker.docs, r2).calls == 0
  {
    StartOk(binding, h1, h2);
    Budget.IssueIsOpen(binding, h1, h2);
  }

  /** After one specialist the other is as fresh as before. */
  lemma StillFresh(s: Team, t: Team, role: Role, other: Role, first: nat, now: int)
    requires TeamInv(t) && !t.failed && t.proposal.None? && t.toolboxes == s.toolboxes + [role] && Elsewhere(s.desk, t.desk, role)
    requires other != role && other !in s.toolboxes && InPack(s.desk.broker.binding, other) && ClientOf(s.desk, other) == FRESH
    requires HasScope(s.desk.broker.docs, other) && ScopeOf(s.desk.broker.docs, other).state.Open? && ScopeOf(s.desk.broker.docs, other).calls == 0
    requires Budget.Unused(t.desk.broker.docs, first) && now < s.desk.broker.binding.expiresAt
    ensures Fresh(t, other, first, now) && ClientOf(t.desk, other) == FRESH
  {
    hide DeskInv, Convincing;
  }

  /** The toolbox holds what was collected on this one document. */
  ghost predicate Planned(t: Team, role: Role, d: nat, first: nat) {
    var b := t.desk.broker.binding;
    ClientOf(t.desk, role).results == Budget.ReceiptsFor(b, Budget.Plan(role, [d]), b.expiresAt - 1, first)
  }

  /** Both specialists analyse one document, and the team proposes. */
  lemma ProposesOnOneDocument(binding: Binding, h1: nat, h2: nat, d: nat) returns (t: Team, steps: seq<TeamStep>)
    requires d in binding.documents
    ensures t == Run(EvidenceTeam.Next, Start(binding, h1, h2), steps) && t.proposal.Some? && t.desk.broker.binding == binding
    ensures exists first: nat :: Planned(t, FirstRole(binding.pack), d, first)
    ensures exists first: nat :: Planned(t, SecondRole(binding.pack), d, first)
  {
    hide TeamInv, DeskInv, EvidenceToolbox.Next, EvidenceTeam.Next, Run, Budget.Plan, Budget.ReceiptsFor, Start, Holding, Elsewhere, Fresh;
    var s, now := Start(binding, h1, h2), binding.expiresAt - 1;
    var r1, r2 := FirstRole(binding.pack), SecondRole(binding.pack);
    StartIsFresh(binding, h1, h2, now);
    NoSteps(s);
    var u;
    u, steps := Specialist(s, s, [], r1, d, now, 0);
    HeldThere(u.desk, r1, Budget.Plan(r1, [d]), now, 0);
    StillFresh(s, u, r1, r2, |Budget.Plan(r1, [d])|, now);
    ElsewhereBinding(s.desk, u.desk, r1);
    t, steps := Specialist(s, u, steps, r2, d, now, |Budget.Plan(r1, [d])|);
    HeldThere(t.desk, r2, Budget.Plan(r2, [d]), now, |Budget.Plan(r1, [d])|);
    ElsewhereClient(u.desk, t.desk, r2, r1);
    var before := steps;
    assert t.completed.Keys == {r1, r2};
    CompleteTeamsPropose(binding, h1, h2, steps, now);
    TeamThen(s, t, steps, Check(true, {r1, r2}, now));
    CheckOnlyProposes(t, now);
    steps, t := steps + [Check(true, {r1, r2}, now)], EvidenceTeam.Next(t, Check(true, {r1, r2}, now));
    assert Planned(t, r1, d, 0) && Planned(t, r2, d, |Budget.Plan(r1, [d])|);
  }

  lemma NoSteps(s: Team)
    ensures Run(EvidenceTeam.Next, s, []) == s
  {
  }

  lemma CheckOnlyProposes(t: Team, now: int)
    ensures EvidenceTeam.Next(t, Check(true, {FirstRole(t.desk.broker.binding.pack), SecondRole(t.desk.broker.binding.pack)}, now)).desk == t.desk
  {
  }

  lemma HeldThere(d: Desk, role: Role, requests: seq<Request>, now: int, first: nat)
    requires Holding(d, role, requests, now, first)
    ensures ClientOf(d, role).results == Budget.ReceiptsFor(d.broker.binding, requests, now, first) && Budget.Unused(d.broker.docs, first + |requests|)
  {
  }

  lemma ElsewhereClient(d: Desk, t: Desk, role: Role, other: Role)
    requires Elsewhere(d, t, role) && other != role
    ensures ClientOf(t, other) == ClientOf(d, other) && t.broker.binding == d.broker.binding
  {
  }

  /** Plans with one document analyse that one. */
  lemma OneAnalysed(b: Binding, role: Role, d: nat, now: int, first: nat, analyzer: Tool)
    ensures Analyzed(Budget.ReceiptsFor(b, Budget.Plan(role, [d]), now, first), analyzer) <= {d}
  {
  }

  lemma SomeAnalyst(binding: Binding)
    ensures MandatoryAnalyzer(FirstRole(binding.pack)).Some? || MandatoryAnalyzer(SecondRole(binding.pack)).Some?
  {
  }

  lemma TwoDocuments(documents: set<nat>) returns (d: nat, e: nat)
    requires |documents| > 1
    ensures d in documents && e in documents && d != e
  {
    d :| d in documents;
    var rest := documents - {d};
    assert |rest| > 0;
    e :| e in rest;
  }

  ghost predicate CoveredProposal(t: Team) {
    t.proposal.Some? ==> Covered(t, FirstRole(t.desk.broker.binding.pack)) && Covered(t, SecondRole(t.desk.broker.binding.pack))
  }

  /** With a single document every proposal covers it. */
  lemma SingleIsCovered(binding: Binding, h1: nat, h2: nat, steps: seq<TeamStep>)
    requires |binding.documents| <= 1
    ensures CoveredProposal(Run(EvidenceTeam.Next, Start(binding, h1, h2), steps))
  {
    hide DeskInv, Convincing, Run, Start, EvidenceTeam.Next, Covered;
    StartOk(binding, h1, h2);
    TeamAlong(Start(binding, h1, h2), steps);
    var t := Run(EvidenceTeam.Next, Start(binding, h1, h2), steps);
    if t.proposal.Some? {
      ProposedFacts(t);
      ProvenCoversOne(t, FirstRole(binding.pack));
      ProvenCoversOne(t, SecondRole(binding.pack));
    }
  }

  lemma ProvenCoversOne(t: Team, role: Role)
    requires DeskInv(t.desk) && InPack(t.desk.broker.binding, role) && Proven(t, role, ClientOf(t.desk, role).receiptIds) && |t.desk.broker.binding.documents| <= 1
    ensures Covered(t, role)
  {
    var analyzer := MandatoryAnalyzer(role);
    if analyzer.Some? {
      ProvenIsDurable(t, role, ClientOf(t.desk, role).receiptIds);
      ReceiptsGenuine(t.desk.broker, role);
      hide DeskInv, Distinct, AllHeld, Genuine;
      var found := ClientOf(t.desk, role).results;
      assert analyzer.value in ToolsOf(found);
      var r :| r in found && r.tool == analyzer.value;
      GenuineAnalysis(t.desk.broker.binding, r, analyzer.value);
      forall x | x in Analyzed(found, analyzer.value) ensures x in t.desk.broker.binding.documents {
        var y :| y in found && y.tool == analyzer.value && y.args.DocumentId? && y.args.document == x;
        GenuineAnalysis(t.desk.broker.binding, y, analyzer.value);
      }
      assert r.args.document in Analyzed(found, analyzer.value);
      OnlyOne(t.desk.broker.binding.documents, Analyzed(found, analyzer.value), r.args.document);
    }
  }

  lemma OnlyOne(documents: set<nat>, part: set<nat>, d: nat)
    requires |documents| <= 1 && part <= documents && d in part
    ensures part == documents
  {
    assert |documents - {d}| == 0;
  }

  lemma GenuineAnalysis(binding: Binding, r: Receipt, analyzer: Tool)
    requires Genuine(binding, r) && r.tool == analyzer && (analyzer.AnalyzeDocument? || analyzer.AnalyzeServiceCoverageDocument?)
    ensures r.args.DocumentId? && r.args.document in binding.documents
  {
  }

  lemma ReceiptsGenuine(s: Broker, role: Role)
    requires Inv(s) && InPack(s.binding, role)
    ensures HasScope(s.docs, role) && AllHeld(s.docs, ScopeOf(s.docs, role).receipts)
    ensures forall r :: r in ReadReceipts(s.docs, ScopeOf(s.docs, role).receipts) ==> Genuine(s.binding, r)
  {
    hide OneOwner, Ends, PositionOk, Genuine;
    assert ScopeOk(s, role);
    var ids := ScopeOf(s.docs, role).receipts;
    var found := ReadReceipts(s.docs, ids);
    forall r | r in found ensures Genuine(s.binding, r) {
      var i :| 0 <= i < |found| && found[i] == r;
      assert HasReceipt(s.docs, ids[i]);
    }
  }

  /** The team proposes only what the broker accepts if and only if there is at most one document
      to analyse: with more, a specialist may leave one out and still convince. */
  lemma ProposalsAreCoveredExactlyWhen(binding: Binding, h1: nat, h2: nat)
    ensures (forall steps :: CoveredProposal(Run(EvidenceTeam.Next, Start(binding, h1, h2), steps))) <==> |binding.documents| <= 1
  {
    hide Run, Start, EvidenceTeam.Next, CoveredProposal;
    if |binding.documents| <= 1 {
      forall steps ensures CoveredProposal(Run(EvidenceTeam.Next, Start(binding, h1, h2), steps)) {
        SingleIsCovered(binding, h1, h2, steps);
      }
    } else {
      var d, e := TwoDocuments(binding.documents);
      var t, steps := ProposesOnOneDocument(binding, h1, h2, d);
      LeavesOneOut(binding, t, d, e);
      assert !CoveredProposal(Run(EvidenceTeam.Next, Start(binding, h1, h2), steps));
    }
  }

  lemma LeavesOneOut(binding: Binding, t: Team, d: nat, e: nat)
    requires t.proposal.Some? && t.desk.broker.binding == binding && e in binding.documents && d != e
    requires exists first: nat :: Planned(t, FirstRole(binding.pack), d, first)
    requires exists first: nat :: Planned(t, SecondRole(binding.pack), d, first)
    ensures !CoveredProposal(t)
  {
    hide Budget.Plan, Budget.ReceiptsFor, Analyzed;
    var now := binding.expiresAt - 1;
    var i: nat :| Planned(t, FirstRole(binding.pack), d, i);
    var j: nat :| Planned(t, SecondRole(binding.pack), d, j);
    SomeAnalyst(binding);
    if MandatoryAnalyzer(FirstRole(binding.pack)).Some? {
      OneAnalysed(binding, FirstRole(binding.pack), d, now, i, MandatoryAnalyzer(FirstRole(binding.pack)).value);
    } else {
      OneAnalysed(binding, SecondRole(binding.pack), d, now, j, MandatoryAnalyzer(SecondRole(binding.pack)).value);
    }
  }
}
