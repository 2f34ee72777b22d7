/** The team of specialists in front of the broker. Two investigations run side by side, each with
    a toolbox of its own, under one failure latch; only when both are complete is a proposal
    made, and it names exactly the durable receipts. */
module EvidenceTeam {
  import opened Results
  import opened DocumentStore
  import opened EvidenceBroker
  import opened EvidenceSafety
  import opened EvidenceToolbox
  import opened Traces

  // ---------------------------------------------------------------- the machine

  /** Where a specialist stands: its agent at work, its connection closing, or over. */
  datatype Phase = Unopened | Investigating | Leaving(ids: seq<nat>) | Ended

  /** `toolboxes` are the roles for which a toolbox was opened, in order. */
  datatype Team = Team(
    desk: Desk, toolboxes: seq<Role>, phases: map<Role, Phase>, completed: map<Role, seq<nat>>, failed: bool,
    proposal: Option<map<Role, seq<nat>>>)

  function PhaseOf(s: Team, role: Role): Phase {
    if role in s.phases then s.phases[role] else Unopened
  }

  function Enter(s: Team, role: Role, phase: Phase): Team {
    s.(phases := s.phases[role := phase])
  }

  function Start(binding: Binding, firstHandle: nat, secondHandle: nat): Team {
    Team(Opening(binding, firstHandle, secondHandle), [], map[], map[], false, None)
  }

  datatype TeamStep =
    | Investigate(role: Role, now: int)
    | Work(move: Move)
    | Conclude(role: Role, usable: bool, now: int)
    | Leave(role: Role, clean: bool)
    | Break(role: Role)
    | Interrupt
    | Check(echoed: bool, named: set<Role>, now: int)

  /** Tools are called, and calls cancelled, only while the agent of the toolbox runs. */
  predicate Permitted(s: Team, m: Move) {
    && (m.Other? || InPack(s.desk.broker.binding, m.role))
    && (m.Ask? || m.Cancel? ==> PhaseOf(s, m.role).Investigating?)
  }

  function IdsOf(found: seq<Receipt>): seq<nat> {
    seq(|found|, i requires 0 <= i < |found| => found[i].id)
  }

  function MinReceipts(pack: Pack): nat {
    if pack.CertificateFulfilment? then 2 else 1
  }

  /** What the code demands of a specialist's toolbox before it believes the specialist. */
  predicate Convincing(c: Client, role: Role, pack: Pack) {
    && !c.failed && ToolsOf(c.results) == Allowed(role) && IdsOf(c.results) == c.receiptIds
    && MinReceipts(pack) <= |c.receiptIds| <= CALL_BUDGET
  }

  function Next(s: Team, step: TeamStep): Team {
    var binding := s.desk.broker.binding;
    match step
    case Investigate(role, now) =>
      if !InPack(binding, role) then s
      else if s.failed || role in s.toolboxes || now >= binding.expiresAt then s.(failed := true)
      else Enter(s, role, Investigating).(toolboxes := s.toolboxes + [role])
    case Work(move) => if Permitted(s, move) then s.(desk := EvidenceToolbox.Next(s.desk, move)) else s
    case Conclude(role, usable, now) =>
      if !PhaseOf(s, role).Investigating? || !ClientOf(s.desk, role).line.Free? then s
      else if usable && !s.failed && now < binding.expiresAt && Convincing(ClientOf(s.desk, role), role, binding.pack)
      then Enter(s, role, Leaving(ClientOf(s.desk, role).receiptIds))
      else Enter(s, role, Ended).(failed := true)
    case Leave(role, clean) =>
      if !PhaseOf(s, role).Leaving? then s
      else if clean then Enter(s, role, Ended).(completed := s.completed[role := PhaseOf(s, role).ids])
      else Enter(s, role, Ended).(failed := true)
    case Break(role) =>
      if PhaseOf(s, role).Investigating? then Enter(s, role, Ended).(failed := true) else s
    case Interrupt => s.(failed := true)
    case Check(echoed, named, now) => if Proposable(s, echoed, named, now) then s.(proposal := Some(s.completed)) else s
  }

  predicate Proposable(s: Team, echoed: bool, named: set<Role>, now: int) {
    var r1, r2 := FirstRole(s.desk.broker.binding.pack), SecondRole(s.desk.broker.binding.pack);
    && echoed && !s.failed && now < s.desk.broker.binding.expiresAt
    && s.completed.Keys == {r1, r2} && named == {r1, r2}
    && Distinct(s.completed[r1] + s.completed[r2])
  }

  // ---------------------------------------------------------------- the invariant

  predicate DistinctRoles(roles: seq<Role>) {
    forall i, j :: 0 <= i < j < |roles| ==> roles[i] != roles[j]
  }

  /** The toolbox is at rest, and what it holds has convinced. */
  predicate Proven(s: Team, role: Role, ids: seq<nat>) {
    var c := ClientOf(s.desk, role);
    c.line.Free? && Convincing(c, role, s.desk.broker.binding.pack) && c.receiptIds == ids
  }

  ghost predicate PhasesOk(s: Team) {
    forall role ::
      && (role in s.toolboxes <==> !PhaseOf(s, role).Unopened?)
      && (role in s.toolboxes ==> InPack(s.desk.broker.binding, role))
      && (PhaseOf(s, role).Unopened? ==> ClientOf(s.desk, role) == FRESH)
      && (PhaseOf(s, role).Leaving? ==> Proven(s, role, PhaseOf(s, role).ids))
      && (role in s.completed ==> PhaseOf(s, role).Ended? && Proven(s, role, s.completed[role]))
  }

  ghost predicate TeamInv(s: Team) {
    && DeskInv(s.desk) && DistinctRoles(s.toolboxes) && PhasesOk(s)
    && (s.proposal.Some? ==>
          s.proposal.value == s.completed
          && s.completed.Keys == {FirstRole(s.desk.broker.binding.pack), SecondRole(s.desk.broker.binding.pack)})
  }

  /** A toolbox at rest is only moved by its own specialist. */
  lemma RestingStays(s: Desk, m: Move, role: Role)
    requires ClientOf(s, role).line.Free?
    requires (m.Ask? || m.Cancel?) ==> m.role != role
    ensures ClientOf(EvidenceToolbox.Next(s, m), role) == ClientOf(s, role)
  {
    hide EvidenceBroker.Next;
  }

  lemma WorkKeeps(s: Team, m: Move)
    requires TeamInv(s) && Permitted(s, m)
    ensures TeamInv(Next(s, Work(m)))
  {
    hide DeskInv, Convincing;
    var t := Next(s, Work(m));
    NextKeepsDesk(s.desk, m);
    BindingStays(s.desk, m);
    forall role
      ensures PhaseOf(s, role).Unopened? ==> ClientOf(t.desk, role) == FRESH
      ensures PhaseOf(s, role).Leaving? ==> Proven(t, role, PhaseOf(s, role).ids)
      ensures role in s.completed ==> Proven(t, role, s.completed[role])
    {
      if ClientOf(s.desk, role).line.Free? && !PhaseOf(s, role).Investigating? {
        RestingStays(s.desk, m, role);
      }
    }
  }

  lemma InvestigateKeeps(s: Team, role: Role, now: int)
    requires TeamInv(s)
    ensures TeamInv(Next(s, Investigate(role, now)))
  {
    hide DeskInv, Convincing;
  }

  lemma ConcludeKeeps(s: Team, role: Role, usable: bool, now: int)
    requires TeamInv(s)
    ensures TeamInv(Next(s, Conclude(role, usable, now)))
  {
    hide DeskInv, Convincing;
  }

  lemma LeaveKeeps(s: Team, role: Role, clean: bool)
    requires TeamInv(s)
    ensures TeamInv(Next(s, Leave(role, clean)))
  {
    hide DeskInv, Convincing;
  }

  lemma RestKeeps(s: Team, step: TeamStep)
    requires TeamInv(s) && (step.Break? || step.Interrupt? || step.Check?)
    ensures TeamInv(Next(s, step))
  {
    hide DeskInv, Convincing;
  }

  lemma NextKeepsTeam(s: Team, step: TeamStep)
    requires TeamInv(s)
    ensures TeamInv(Next(s, step)) && Next(s, step).desk.broker.binding == s.desk.broker.binding
  {
    hide TeamInv, Convincing, EvidenceToolbox.Next;
    match step
    case Investigate(role, now) => InvestigateKeeps(s, role, now);
    case Work(m) =>
      if Permitted(s, m) {
        WorkKeeps(s, m);
        BindingStays(s.desk, m);
      }
    case Conclude(role, usable, now) => ConcludeKeeps(s, role, usable, now);
    case Leave(role, clean) => LeaveKeeps(s, role, clean);
    case _ => RestKeeps(s, step);
  }

  lemma {:induction false} TeamAlong(s: Team, steps: seq<TeamStep>)
    requires TeamInv(s)
    ensures TeamInv(Run(Next, s, steps)) && Run(Next, s, steps).desk.broker.binding == s.desk.broker.binding
  {
    hide TeamInv, Next;
    if steps != [] {
      TeamAlong(s, steps[..|steps| - 1]);
      NextKeepsTeam(Run(Next, s, steps[..|steps| - 1]), steps[|steps| - 1]);
    }
  }

  lemma StartOk(binding: Binding, h1: nat, h2: nat)
    ensures TeamInv(Start(binding, h1, h2)) && Start(binding, h1, h2).desk.broker.binding == binding
  {
    OpeningAgrees(binding, h1, h2);
  }

  // ---------------------------------------------------------------- what a proposal is worth

  /** No handle ever has two toolboxes: each specialist is started at most once, whatever the
      coordinator's model asks for. */
  lemma OneToolboxPerHandle(binding: Binding, h1: nat, h2: nat, steps: seq<TeamStep>)
    ensures var t := Run(Next, Start(binding, h1, h2), steps);
      DistinctRoles(t.toolboxes) && (forall role :: role in t.toolboxes ==> InPack(binding, role))
  {
    StartOk(binding, h1, h2);
    TeamAlong(Start(binding, h1, h2), steps);
    var t := Run(Next, Start(binding, h1, h2), steps);
    hide DeskInv;
  }

  /** Once anything has failed, no proposal follows. */
  lemma {:induction false} FailureLeavesNoProposal(s: Team, steps: seq<TeamStep>)
    requires s.failed && s.proposal.None?
    ensures Run(Next, s, steps).failed && Run(Next, s, steps).proposal.None?
  {
    hide EvidenceToolbox.Next;
    if steps != [] {
      FailureLeavesNoProposal(s, steps[..|steps| - 1]);
    }
  }

  /** A proposal names, from then on, exactly the durable receipts of both scopes in order: every
      allowed tool used, no receipt twice, and never more than the budget. */
  lemma ProposalsNameDurableReceipts(binding: Binding, h1: nat, h2: nat, steps: seq<TeamStep>, role: Role)
    requires InPack(binding, role) && Run(Next, Start(binding, h1, h2), steps).proposal.Some?
    ensures var t := Run(Next, Start(binding, h1, h2), steps); var docs := t.desk.broker.docs;
      && role in t.proposal.value && HasScope(docs, role)
      && t.proposal.value[role] == ScopeOf(docs, role).receipts && Distinct(t.proposal.value[role])
      && AllHeld(docs, t.proposal.value[role])
      && ToolsOf(ReadReceipts(docs, t.proposal.value[role])) == Allowed(role)
      && MinReceipts(binding.pack) <= |t.proposal.value[role]| <= CALL_BUDGET
  {
    StartOk(binding, h1, h2);
    TeamAlong(Start(binding, h1, h2), steps);
    var t := Run(Next, Start(binding, h1, h2), steps);
    ProvenIsDurable(t, role, t.completed[role]);
  }

  lemma ProvenIsDurable(s: Team, role: Role, ids: seq<nat>)
    requires DeskInv(s.desk) && InPack(s.desk.broker.binding, role) && Proven(s, role, ids)
    ensures var docs := s.desk.broker.docs;
      && HasScope(docs, role) && ids == ScopeOf(docs, role).receipts && Distinct(ids) && AllHeld(docs, ids)
      && ReadReceipts(docs, ids) == ClientOf(s.desk, role).results
  {
    hide ReceiptsOk, OneOwner, Ends, PositionOk, CallsServed;
    assert Agrees(s.desk, role) && ScopeOk(s.desk.broker, role);
    assert ReadReceipts(s.desk.broker.docs, ids) == ClientOf(s.desk, role).results;
  }

  /** Two complete specialists are all it takes: their receipts are never the same, so the check
      for repeated ones cannot refuse. */
  lemma CompleteTeamsPropose(binding: Binding, h1: nat, h2: nat, steps: seq<TeamStep>, now: int)
    requires var t := Run(Next, Start(binding, h1, h2), steps); var roles := {FirstRole(binding.pack), SecondRole(binding.pack)};
      !t.failed && t.completed.Keys == roles && now < binding.expiresAt
    ensures var t := Run(Next, Start(binding, h1, h2), steps); var roles := {FirstRole(binding.pack), SecondRole(binding.pack)};
      Next(t, Check(true, roles, now)).proposal == Some(t.completed)
  {
    StartOk(binding, h1, h2);
    TeamAlong(Start(binding, h1, h2), steps);
    var t := Run(Next, Start(binding, h1, h2), steps);
    var r1, r2 := FirstRole(binding.pack), SecondRole(binding.pack);
    hide DeskInv, Convincing, Run, Start, Next, Distinct;
    CompletedAreApart(t);
    CheckProposes(t, now);
  }

  lemma CompletedAreApart(s: Team)
    requires var binding := s.desk.broker.binding; s.completed.Keys == {FirstRole(binding.pack), SecondRole(binding.pack)} && TeamInv(s)
    ensures var binding := s.desk.broker.binding; Distinct(s.completed[FirstRole(binding.pack)] + s.completed[SecondRole(binding.pack)])
  {
    var r1, r2 := FirstRole(s.desk.broker.binding.pack), SecondRole(s.desk.broker.binding.pack);
    hide Agrees, Convincing, Distinct, ScopeOk;
    ProvenIsDurable(s, r1, s.completed[r1]);
    ProvenIsDurable(s, r2, s.completed[r2]);
    ScopesAreApart(s.desk.broker, r1, r2);
  }

  lemma CheckProposes(t: Team, now: int)
    requires Proposable(t, true, {FirstRole(t.desk.broker.binding.pack), SecondRole(t.desk.broker.binding.pack)}, now)
    ensures Next(t, Check(true, {FirstRole(t.desk.broker.binding.pack), SecondRole(t.desk.broker.binding.pack)}, now)).proposal == Some(t.completed)
  {
  }

  lemma ScopesAreApart(s: Broker, r1: Role, r2: Role)
    requires Inv(s) && InPack(s.binding, r1) && InPack(s.binding, r2) && r1 != r2
    ensures Distinct(ScopeOf(s.docs, r1).receipts + ScopeOf(s.docs, r2).receipts)
  {
    hide ReceiptsOk, OneOwner, Ends, PositionOk;
    assert ScopeOk(s, r1) && ScopeOk(s, r2);
  }

  // ---------------------------------------------------------------- the controller finishes

  /** `finish` from its first read to its acknowledged batch, with no one in between. */
  function FinishCall(binding: Binding, w: nat, ids: map<Role, seq<nat>>, now: int): seq<Step> {
    [Step(w, FinishLoad(binding, ids, now)), Step(w, FinishFirst), Step(w, FinishSecond), Step(w, FinishStore(true))]
  }

  lemma FourSteps(b: Broker, steps: seq<Step>)
    requires |steps| == 4
    ensures Run(EvidenceBroker.Next, b, steps) ==
      EvidenceBroker.Next(EvidenceBroker.Next(EvidenceBroker.Next(EvidenceBroker.Next(b, steps[0]), steps[1]), steps[2]), steps[3])
  {
    hide EvidenceBroker.Next;
    assert steps[..1] == [steps[0]];
    RunOne(EvidenceBroker.Next, b, steps[0]);
    assert steps[..2][..1] == steps[..1];
    assert Run(EvidenceBroker.Next, b, steps[..2]) == EvidenceBroker.Next(Run(EvidenceBroker.Next, b, steps[..1]), steps[1]);
    assert steps[..3][..2] == steps[..2];
    assert Run(EvidenceBroker.Next, b, steps[..3]) == EvidenceBroker.Next(Run(EvidenceBroker.Next, b, steps[..2]), steps[2]);
  }

  lemma FinishSteps(b: Broker, w: nat, ids: map<Role, seq<nat>>, now: int)
    ensures At(b, w).Idle? && ids.Keys == {FirstRole(b.binding.pack), SecondRole(b.binding.pack)} && now < b.binding.expiresAt ==>
      EvidenceBroker.Next(b, Step(w, FinishLoad(b.binding, ids, now))) == Goto(b, w, Finishing(ids, now))
    ensures EvidenceBroker.Next(b, Step(w, FinishFirst)) == if At(b, w).Finishing? then NextFinishFirst(b, w, At(b, w)) else b
    ensures EvidenceBroker.Next(b, Step(w, FinishSecond)) == if At(b, w).FinishingSecond? then NextFinishSecond(b, w, At(b, w)) else b
    ensures EvidenceBroker.Next(b, Step(w, FinishStore(true))) == if At(b, w).Closing? then NextClose(b, w, At(b, w), true) else b
  {
    hide NextFinishFirst, NextFinishSecond, NextClose;
  }

  lemma ReadRoleSame(s: Broker, t: Broker, role: Role, ids: seq<nat>)
    requires t.docs == s.docs && t.binding == s.binding
    ensures ReadRole(t, role, ids) == ReadRole(s, role, ids)
  {
  }

  /** An undisturbed `finish` succeeds exactly when both roles read as complete. */
  lemma FinishDecides(b: Broker, w: nat, ids: map<Role, seq<nat>>, now: int)
    requires At(b, w).Idle? && now < b.binding.expiresAt && ids.Keys == {FirstRole(b.binding.pack), SecondRole(b.binding.pack)}
    requires forall role :: InPack(b.binding, role) ==> HasScope(b.docs, role) && ScopeOf(b.docs, role).role == role
    ensures var first, second := ReadRole(b, FirstRole(b.binding.pack), ids[FirstRole(b.binding.pack)]), ReadRole(b, SecondRole(b.binding.pack), ids[SecondRole(b.binding.pack)]);
      Run(EvidenceBroker.Next, b, FinishCall(b.binding, w, ids, now)).finished
        == b.finished + if first.Some? && second.Some? then [first.value.2 + second.value.2] else []
  {
    hide ReadRole, EvidenceBroker.Next, Run, Batch;
    var r1, r2 := FirstRole(b.binding.pack), SecondRole(b.binding.pack);
    FourSteps(b, FinishCall(b.binding, w, ids, now));
    FinishSteps(b, w, ids, now);
    var t1 := Goto(b, w, Finishing(ids, now));
    FinishSteps(t1, w, ids, now);
    ReadRoleSame(b, t1, r1, ids[r1]);
    var t2 := EvidenceBroker.Next(t1, Step(w, FinishFirst));
    FinishSteps(t2, w, ids, now);
    ReadRoleSame(b, t2, r2, ids[r2]);
    var t3 := EvidenceBroker.Next(t2, Step(w, FinishSecond));
    FinishSteps(t3, w, ids, now);
    ReadRoleFacts(b, r1, ids[r1]);
    ReadRoleFacts(b, r2, ids[r2]);
  }

  lemma ReadRoleFacts(b: Broker, role: Role, ids: seq<nat>)
    requires HasScope(b.docs, role)
    ensures ReadRole(b, role, ids).Some? ==>
      ReadRole(b, role, ids).value.0 == ScopeOf(b.docs, role) && ReadRole(b, role, ids).value.1 == TagOf(b.docs, role)
  {
  }

  /** Every document the role must analyse was analysed. */
  predicate Covered(s: Team, role: Role) {
    var analyzer := MandatoryAnalyzer(role);
    analyzer.Some? ==> Analyzed(ClientOf(s.desk, role).results, analyzer.value) == s.desk.broker.binding.documents
  }

  lemma ProvenReads(s: Team, role: Role)
    requires DeskInv(s.desk) && InPack(s.desk.broker.binding, role) && Proven(s, role, ClientOf(s.desk, role).receiptIds)
    requires HasScope(s.desk.broker.docs, role) && ScopeOf(s.desk.broker.docs, role).state.Open?
    ensures ReadRole(s.desk.broker, role, ClientOf(s.desk, role).receiptIds)
         == if Covered(s, role) then Some((ScopeOf(s.desk.broker.docs, role), TagOf(s.desk.broker.docs, role), ClientOf(s.desk, role).results)) else None
  {
    ProvenIsDurable(s, role, ClientOf(s.desk, role).receiptIds);
    ReceiptsFit(s.desk.broker, role);
    ScopeBound(s.desk.broker, role);
    hide DeskInv, Distinct, AllHeld, Allowed;
    SomeTool();
  }

  lemma SomeTool()
    ensures ToolsOf([]) == {}
  {
  }

  lemma ScopeBound(s: Broker, role: Role)
    requires Inv(s) && InPack(s.binding, role)
    ensures HasScope(s.docs, role) && ScopeOf(s.docs, role).binding == s.binding
  {
    assert ScopeOk(s, role);
  }

  lemma ReceiptsFit(s: Broker, role: Role)
    requires Inv(s) && InPack(s.binding, role)
    ensures HasScope(s.docs, role) && AllHeld(s.docs, ScopeOf(s.docs, role).receipts)
    ensures forall r :: r in ReadReceipts(s.docs, ScopeOf(s.docs, role).receipts) ==> r.role == role && r.source == s.binding.source
  {
    hide OneOwner, Ends, PositionOk;
    assert ScopeOk(s, role);
    var ids := ScopeOf(s.docs, role).receipts;
    var found := ReadReceipts(s.docs, ids);
    forall r | r in found ensures r.role == role && r.source == s.binding.source {
      var i :| 0 <= i < |found| && found[i] == r;
      assert HasReceipt(s.docs, ids[i]);
    }
  }

  /** The team checks that every tool was used, not that every document was analysed. So an
      undisturbed `finish` on a proposal succeeds if and only if every document the specialists
      must analyse was analysed, and then it returns what the two toolboxes hold. */
  lemma ProposalFinishesExactlyWhen(binding: Binding, h1: nat, h2: nat, steps: seq<TeamStep>, controller: nat, now: int)
    requires var t := Run(Next, Start(binding, h1, h2), steps);
      && t.proposal.Some? && At(t.desk.broker, controller).Idle? && now < binding.expiresAt
      && (forall role :: InPack(binding, role) ==> HasScope(t.desk.broker.docs, role) && ScopeOf(t.desk.broker.docs, role).state.Open?)
    ensures var t := Run(Next, Start(binding, h1, h2), steps);
      var r1, r2 := FirstRole(binding.pack), SecondRole(binding.pack);
      Run(EvidenceBroker.Next, t.desk.broker, FinishCall(binding, controller, t.proposal.value, now)).finished
        == if Covered(t, r1) && Covered(t, r2) then [ClientOf(t.desk, r1).results + ClientOf(t.desk, r2).results] else []
  {
    hide TeamInv, DeskInv, Inv, Convincing, Run, Start, Next, Covered, ReadRole, EvidenceBroker.Next;
    StartOk(binding, h1, h2);
    TeamAlong(Start(binding, h1, h2), steps);
    var t := Run(Next, Start(binding, h1, h2), steps);
    var r1, r2 := FirstRole(binding.pack), SecondRole(binding.pack);
    ProposedFacts(t);
    OpenIsUnfinished(t.desk.broker);
    ProvenReads(t, r1);
    ProvenReads(t, r2);
    FinishDecides(t.desk.broker, controller, t.proposal.value, now);
  }

  lemma ProposedFacts(t: Team)
    requires TeamInv(t) && t.proposal.Some?
    ensures var r1, r2 := FirstRole(t.desk.broker.binding.pack), SecondRole(t.desk.broker.binding.pack);
      && DeskInv(t.desk) && Inv(t.desk.broker)
      && t.proposal.value == map[r1 := ClientOf(t.desk, r1).receiptIds, r2 := ClientOf(t.desk, r2).receiptIds]
      && Proven(t, r1, ClientOf(t.desk, r1).receiptIds) && Proven(t, r2, ClientOf(t.desk, r2).receiptIds)
  {
    hide Inv, Agrees, Convincing;
    var r1, r2 := FirstRole(t.desk.broker.binding.pack), SecondRole(t.desk.broker.binding.pack);
    assert r1 in t.completed && r2 in t.completed;
  }

  lemma OpenIsUnfinished(s: Broker)
    requires Inv(s) && ScopeOf(s.docs, FirstRole(s.binding.pack)).state.Open?
    ensures s.finished == []
    ensures forall role :: InPack(s.binding, role) ==> ScopeOf(s.docs, role).role == role
  {
    assert ScopeOk(s, FirstRole(s.binding.pack)) && ScopeOk(s, SecondRole(s.binding.pack));
  }
}
