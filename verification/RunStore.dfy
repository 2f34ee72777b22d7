/** The two Run stores: the locked in-memory one, and the document store where a commit is a
    read followed by an atomic batch. */
module RunStore {
  import opened Results
  import opened RunRecords
  import opened DocumentStore
  import opened Traces

  /** One call of a store's commit. */
  datatype Change = Change(record: RunRecord, event: Event, expected: nat)

  datatype Outcome = Committed | Conflict | NotFound

  // ---------------------------------------------------------------- one Run in memory

  /** What a store holds of one Run: its snapshot, its audit log and its versioned briefs. */
  datatype Ledger = Ledger(record: Option<RunRecord>, log: seq<Event>, briefs: map<nat, VersionedBrief>)

  const EMPTY := Ledger(None, [], map[])

  function Revision(m: Ledger): nat {
    if m.record.None? then 0 else m.record.value.revision
  }

  /** A commit is a compare-and-swap on the revision. */
  predicate Accepts(m: Ledger, c: Change) {
    && Revision(m) == c.expected
    && c.record.revision == c.expected + 1
    && c.event.sequence == c.record.revision
    && !(VersionsBrief(c) && c.record.envelope.value.brief.version in m.briefs)
  }

  predicate VersionsBrief(c: Change) {
    c.event.kind.BriefVersioned? && c.record.envelope.Some?
  }

  function Append(m: Ledger, c: Change): Ledger {
    if !Accepts(m, c) then m
    else Ledger(
      Some(c.record),
      m.log + [c.event],
      if VersionsBrief(c) then m.briefs[c.record.envelope.value.brief.version := c.record.envelope.value] else m.briefs)
  }

  ghost function BriefsOf(briefs: map<(nat, nat), VersionedBrief>, run: nat): map<nat, VersionedBrief> {
    var versions := set key | key in briefs.Keys && key.0 == run :: key.1;
    map v | v in versions :: briefs[(run, v)]
  }

  lemma BriefsOfUpdated(briefs: map<(nat, nat), VersionedBrief>, run: nat, version: nat, e: VersionedBrief, other: nat)
    ensures BriefsOf(briefs[(run, version) := e], other)
         == if other == run then BriefsOf(briefs, run)[version := e] else BriefsOf(briefs, other)
    ensures version in BriefsOf(briefs, run) <==> (run, version) in briefs
  {
    var after := briefs[(run, version) := e];
    forall v: nat ensures v in BriefsOf(after, other) <==> (other, v) in after {
      assert (other, v) in after.Keys ==> (other, v).1 in BriefsOf(after, other);
    }
    forall v: nat, r: nat ensures v in BriefsOf(briefs, r) <==> (r, v) in briefs {
      assert (r, v) in briefs.Keys ==> (r, v).1 in BriefsOf(briefs, r);
    }
  }

  /** The in-memory store. */
  class MemoryStore {
    var records: map<nat, RunRecord>
    var log: map<nat, seq<Event>>
    var briefs: map<(nat, nat), VersionedBrief>

    constructor ()
      ensures forall run :: LedgerOf(run) == EMPTY
    {
      records, log, briefs := map[], map[], map[];
    }

    ghost function LedgerOf(run: nat): Ledger
      reads this
    {
      Ledger(
        if run in records then Some(records[run]) else None,
        if run in log then log[run] else [],
        BriefsOf(briefs, run))
    }

    /** One Run moves by `Append`; every other Run is untouched. */
    method Commit(record: RunRecord, event: Event, expected: nat) returns (r: Outcome)
      modifies this
      ensures LedgerOf(record.runId) == Append(old(LedgerOf(record.runId)), Change(record, event, expected))
      ensures r == if Accepts(old(LedgerOf(record.runId)), Change(record, event, expected)) then Committed else Conflict
      ensures forall run :: run != record.runId ==> LedgerOf(run) == old(LedgerOf(run))
    {
      var current := if record.runId in records then records[record.runId].revision else 0;
      if current != expected {
        return Conflict;
      }
      if record.revision != expected + 1 || event.sequence != record.revision {
        return Conflict;
      }
      if event.kind.BriefVersioned? && record.envelope.Some? {
        var key := (record.runId, record.envelope.value.brief.version);
        forall run {
          BriefsOfUpdated(briefs, key.0, key.1, record.envelope.value, run);
        }
        if key in briefs {
          return Conflict;
        }
        briefs := briefs[key := record.envelope.value];
      }
      records := records[record.runId := record];
      log := log[record.runId := (if record.runId in log then log[record.runId] else []) + [event]];
      r := Committed;
    }
  }

  // ---------------------------------------------------------------- one Run in the document store

  datatype DocId = SnapshotId | EventId(sequence: nat) | BriefId(version: nat)

  datatype Doc = SnapshotDoc(record: RunRecord) | EventDoc(event: Event) | BriefDoc(envelope: VersionedBrief, evidence: seq<nat>)

  /** The batch one commit submits: the snapshot, its event and, for a new version, its brief. */
  function CommitWrites(c: Change, etag: nat): Writes<DocId, Doc> {
    var snapshot := if c.expected == 0 then Create(SnapshotDoc(c.record)) else Replace(SnapshotDoc(c.record), etag);
    map[SnapshotId := snapshot, EventId(c.event.sequence) := Create(EventDoc(c.event))]
    + if VersionsBrief(c)
      then map[BriefId(c.record.envelope.value.brief.version) := Create(BriefDoc(c.record.envelope.value, c.record.evidence))]
      else map[]
  }

  /** A commit that has read the snapshot's tag and not yet submitted its batch. */
  datatype Pending = Pending(change: Change, etag: nat)

  /** The partition, the commits under way, and the commits that are over, in the order in
      which they took effect or were refused. */
  datatype Cosmos = Cosmos(
    container: Partition<DocId, Doc>,
    pending: map<nat, Pending>,
    settled: seq<(Change, Outcome)>)

  datatype CosmosStep = Read(caller: nat, change: Change) | Submit(caller: nat) | Abandon(caller: nat)

  const NEW_CONTAINER: Cosmos := Cosmos(Partition(map[], 0), map[], [])

  predicate Sequenced(c: Change) {
    c.record.revision == c.expected + 1 && c.event.sequence == c.record.revision
  }

  predicate HasSnapshot(p: Partition<DocId, Doc>) {
    SnapshotId in p.docs && p.docs[SnapshotId].body.SnapshotDoc?
  }

  /** The read half of a commit: refused on the spot, or under way with the tag it read. */
  function AfterRead(p: Partition<DocId, Doc>, c: Change): Result<Pending, Outcome> {
    if !Sequenced(c) then Err(Conflict)
    else if c.expected == 0 then Ok(Pending(c, 0))
    else if !HasSnapshot(p) then Err(NotFound)
    else if p.docs[SnapshotId].body.record.revision != c.expected then Err(Conflict)
    else Ok(Pending(c, p.docs[SnapshotId].etag))
  }

  function NextCosmos(s: Cosmos, step: CosmosStep): Cosmos {
    match step
    case Read(caller, c) =>
      if caller in s.pending then s
      else (match AfterRead(s.container, c)
            case Err(o) => s.(settled := s.settled + [(c, o)])
            case Ok(p) => s.(pending := s.pending[caller := p]))
    case Submit(caller) =>
      if caller !in s.pending then s
      else
        var c, writes := s.pending[caller].change, CommitWrites(s.pending[caller].change, s.pending[caller].etag);
        Cosmos(
          Batch(s.container, writes),
          s.pending - {caller},
          s.settled + [(c, if Admits(s.container, writes) then Committed else Conflict)])
    case Abandon(caller) => s.(pending := s.pending - {caller})
  }

  // ---------------------------------------------------------------- the partition mirrors a ledger

  /** The partition holds exactly the documents of the ledger: the snapshot, one event document
      for each sequence number from one to the revision, and the versioned briefs. */
  ghost predicate Mirrors(p: Partition<DocId, Doc>, m: Ledger) {
    && Tagged(p)
    && MirrorsSnapshot(p, m)
    && |m.log| == Revision(m)
    && (forall n: nat :: EventId(n) in p.docs <==> 1 <= n <= |m.log|)
    && (forall n: nat :: 1 <= n <= |m.log| ==> p.docs[EventId(n)].body == EventDoc(m.log[n - 1]))
    && (forall v: nat :: BriefId(v) in p.docs <==> v in m.briefs)
    && (forall v: nat :: v in m.briefs ==> p.docs[BriefId(v)].body.BriefDoc? && p.docs[BriefId(v)].body.envelope == m.briefs[v])
  }

  ghost predicate MirrorsSnapshot(p: Partition<DocId, Doc>, m: Ledger) {
    && (SnapshotId in p.docs <==> m.record.Some?)
    && (m.record.Some? ==> p.docs[SnapshotId].body == SnapshotDoc(m.record.value) && m.record.value.revision > 0)
  }

  /** A pending batch names the current tag exactly when the revision is still the one it read. */
  ghost predicate InStep(p: Partition<DocId, Doc>, m: Ledger, w: Pending) {
    && Sequenced(w.change)
    && (w.change.expected > 0 ==>
      && m.record.Some? && SnapshotId in p.docs && w.etag < p.clock
      && w.change.expected <= Revision(m)
      && (Revision(m) == w.change.expected <==> p.docs[SnapshotId].etag == w.etag))
  }

  lemma SubmitAdmittedIffAccepted(p: Partition<DocId, Doc>, m: Ledger, w: Pending)
    requires Mirrors(p, m) && InStep(p, m, w)
    ensures Admits(p, CommitWrites(w.change, w.etag)) <==> Accepts(m, w.change)
  {
    var c := w.change;
    var writes := CommitWrites(c, w.etag);
    assert SnapshotId in writes && EventId(c.event.sequence) in writes;
    assert VersionsBrief(c) ==> BriefId(c.record.envelope.value.brief.version) in writes;
  }

  lemma WhatACommitWrites(c: Change, etag: nat)
    ensures var writes := CommitWrites(c, etag);
      && (forall k :: k in writes <==> k == SnapshotId || k == EventId(c.event.sequence)
                                       || (VersionsBrief(c) && k == BriefId(c.record.envelope.value.brief.version)))
      && writes[SnapshotId].body == SnapshotDoc(c.record)
      && writes[EventId(c.event.sequence)].body == EventDoc(c.event)
      && (VersionsBrief(c) ==>
            writes[BriefId(c.record.envelope.value.brief.version)].body == BriefDoc(c.record.envelope.value, c.record.evidence))
  {
  }

  /** A submitted batch does exactly what the in-memory commit does. */
  lemma SubmitIsAppend(p: Partition<DocId, Doc>, m: Ledger, w: Pending)
    requires Mirrors(p, m) && InStep(p, m, w)
    ensures Mirrors(Batch(p, CommitWrites(w.change, w.etag)), Append(m, w.change))
  {
    SubmitAdmittedIffAccepted(p, m, w);
    if Accepts(m, w.change) {
      WhatACommitWrites(w.change, w.etag);
      AdmittedIsAppend(p, m, w.change, CommitWrites(w.change, w.etag));
    }
  }

  lemma AdmittedIsAppend(p: Partition<DocId, Doc>, m: Ledger, c: Change, writes: Writes<DocId, Doc>)
    requires Mirrors(p, m) && Accepts(m, c) && Admits(p, writes)
    requires forall k :: k in writes <==> k == SnapshotId || k == EventId(c.event.sequence)
                                          || (VersionsBrief(c) && k == BriefId(c.record.envelope.value.brief.version))
    requires writes[SnapshotId].body == SnapshotDoc(c.record)
    requires writes[EventId(c.event.sequence)].body == EventDoc(c.event)
    requires VersionsBrief(c) ==>
      writes[BriefId(c.record.envelope.value.brief.version)].body == BriefDoc(c.record.envelope.value, c.record.evidence)
    ensures Mirrors(Batch(p, writes), Append(m, c))
  {
    var q, m' := Batch(p, writes), Append(m, c);
    BatchKeepsTags(p, writes);
    assert forall n: nat :: EventId(n) in writes <==> n == |m'.log|;
    assert forall n: nat :: 1 <= n <= |m.log| ==> q.docs[EventId(n)] == p.docs[EventId(n)];
    assert forall n: nat :: 1 <= n <= |m'.log| ==> q.docs[EventId(n)].body == EventDoc(m'.log[n - 1]);
    assert forall v: nat :: BriefId(v) in q.docs <==> v in m'.briefs;
  }

  /** Another caller's batch leaves a pending commit in step, or out of date for good. */
  lemma StaysInStep(p: Partition<DocId, Doc>, m: Ledger, w: Pending, other: Pending)
    requires Mirrors(p, m) && InStep(p, m, w) && InStep(p, m, other)
    ensures InStep(Batch(p, CommitWrites(other.change, other.etag)), Append(m, other.change), w)
  {
    SubmitAdmittedIffAccepted(p, m, other);
  }

  /** The in-memory store after the settled commits, in the order in which they settled. */
  function Replay(settled: seq<(Change, Outcome)>): Ledger {
    if settled == [] then EMPTY else Append(Replay(settled[..|settled| - 1]), settled[|settled| - 1].0)
  }

  /** Every settled commit got the outcome the in-memory store would have given it. The one
      difference between the two stores is the error raised for a Run that does not exist. */
  ghost predicate SameOutcomes(settled: seq<(Change, Outcome)>) {
    forall i :: 0 <= i < |settled| ==>
      var m, c, o := Replay(settled[..i]), settled[i].0, settled[i].1;
      && (o.Committed? <==> Accepts(m, c))
      && (o.NotFound? <==> Sequenced(c) && c.expected > 0 && m.record.None?)
  }

  ghost predicate Linear(s: Cosmos) {
    && Mirrors(s.container, Replay(s.settled))
    && SameOutcomes(s.settled)
    && forall caller :: caller in s.pending ==> InStep(s.container, Replay(s.settled), s.pending[caller])
  }

  lemma SettleOne(settled: seq<(Change, Outcome)>, c: Change, o: Outcome)
    requires SameOutcomes(settled)
    requires o.Committed? <==> Accepts(Replay(settled), c)
    requires o.NotFound? <==> Sequenced(c) && c.expected > 0 && Replay(settled).record.None?
    ensures SameOutcomes(settled + [(c, o)])
    ensures Replay(settled + [(c, o)]) == Append(Replay(settled), c)
  {
    var s' := settled + [(c, o)];
    assert s'[..|s'| - 1] == settled;
    forall i | 0 <= i < |s'| ensures s'[..i] == if i < |settled| then settled[..i] else settled {
    }
  }

  lemma NextKeepsLinear(s: Cosmos, step: CosmosStep)
    requires Linear(s)
    ensures Linear(NextCosmos(s, step))
  {
    var m := Replay(s.settled);
    match step
    case Read(caller, c) =>
      if caller !in s.pending && AfterRead(s.container, c).Err? {
        SettleOne(s.settled, c, AfterRead(s.container, c).error);
      }
    case Submit(caller) =>
      if caller in s.pending {
        var w := s.pending[caller];
        var o := if Admits(s.container, CommitWrites(w.change, w.etag)) then Committed else Conflict;
        SubmitAdmittedIffAccepted(s.container, m, w);
        SettleOne(s.settled, w.change, o);
        SubmitIsAppend(s.container, m, w);
        forall other | other in s.pending && other != caller
          ensures InStep(Batch(s.container, CommitWrites(w.change, w.etag)), Append(m, w.change), s.pending[other])
        {
          StaysInStep(s.container, m, s.pending[other], w);
        }
      }
    case Abandon(caller) =>
  }

  /** Read-then-replace is a linearizable compare-and-swap: however the two halves of the
      commits interleave, the partition holds what the locked in-memory store would hold after
      the same commits in the order in which they settled, and each got the same answer. */
  lemma CosmosRefinesMemory(steps: seq<CosmosStep>)
    ensures Linear(Run(NextCosmos, NEW_CONTAINER, steps))
  {
    forall s: Cosmos, step: CosmosStep | Linear(s) ensures Linear(NextCosmos(s, step)) {
      NextKeepsLinear(s, step);
    }
    RunKeeps(NextCosmos, Linear, NEW_CONTAINER, steps);
  }

  predicate ByOthers(caller: nat, steps: seq<CosmosStep>) {
    forall i :: 0 <= i < |steps| ==> steps[i].caller != caller
  }

  lemma {:induction false} OthersLeavePending(caller: nat, s: Cosmos, steps: seq<CosmosStep>)
    requires ByOthers(caller, steps)
    ensures var t := Run(NextCosmos, s, steps);
      (caller in t.pending <==> caller in s.pending) && (caller in s.pending ==> t.pending[caller] == s.pending[caller])
  {
    if steps != [] {
      OthersLeavePending(caller, s, steps[..|steps| - 1]);
    }
  }

  /** The document store. `others` is what the other callers do between this commit's read and
      its batch. */
  class CosmosStore {
    var container: Partition<DocId, Doc>
    var pending: map<nat, Pending>
    var settled: seq<(Change, Outcome)>

    constructor ()
      ensures State() == NEW_CONTAINER
    {
      container, pending, settled := NEW_CONTAINER.container, map[], [];
    }

    function State(): Cosmos
      reads this
    {
      Cosmos(container, pending, settled)
    }

    method Interfere(others: seq<CosmosStep>)
      modifies this
      ensures State() == Run(NextCosmos, old(State()), others)
    {
      var s := Run(NextCosmos, State(), others);
      container, pending, settled := s.container, s.pending, s.settled;
    }

    method Commit(caller: nat, record: RunRecord, event: Event, expected: nat, others: seq<CosmosStep>) returns (r: Outcome)
      requires caller !in pending && ByOthers(caller, others)
      modifies this
      ensures var c, before := Change(record, event, expected), old(State());
        State() == match AfterRead(before.container, c)
                   case Err(_) => NextCosmos(before, Read(caller, c))
                   case Ok(_) => NextCosmos(Run(NextCosmos, NextCosmos(before, Read(caller, c)), others), Submit(caller))
      ensures |settled| > 0 && settled[|settled| - 1] == (Change(record, event, expected), r)
      ensures caller !in pending
    {
      hide Run, Admits, Batch;
      var c := Change(record, event, expected);
      if record.revision != expected + 1 || event.sequence != record.revision {
        settled := settled + [(c, Conflict)];
        return Conflict;
      }
      var operations: Writes<DocId, Doc> := map[];
      var etag := 0;
      if expected == 0 {
        operations := map[SnapshotId := Create(SnapshotDoc(record))];
      } else {
        if !HasSnapshot(container) {
          settled := settled + [(c, NotFound)];
          return NotFound;
        }
        var snapshot := container.docs[SnapshotId];
        if snapshot.body.record.revision != expected {
          settled := settled + [(c, Conflict)];
          return Conflict;
        }
        etag := snapshot.etag;
        operations := map[SnapshotId := Replace(SnapshotDoc(record), etag)];
      }
      pending := pending[caller := Pending(c, etag)];
      OthersLeavePending(caller, State(), others);
      Interfere(others);
      operations := operations + map[EventId(event.sequence) := Create(EventDoc(event))];
      if event.kind.BriefVersioned? && record.envelope.Some? {
        operations := operations + map[BriefId(record.envelope.value.brief.version) := Create(BriefDoc(record.envelope.value, record.evidence))];
      }
      assert operations == CommitWrites(c, etag);
      r := if Admits(container, operations) then Committed else Conflict;
      container := Batch(container, operations);
      pending := pending - {caller};
      settled := settled + [(c, r)];
    }
  }

  lemma LinearAcross(caller: nat, c: Change, s: Cosmos, others: seq<CosmosStep>)
    requires Linear(s)
    ensures Linear(NextCosmos(s, Read(caller, c)))
    ensures Linear(NextCosmos(Run(NextCosmos, NextCosmos(s, Read(caller, c)), others), Submit(caller)))
  {
    forall t: Cosmos, step: CosmosStep | Linear(t) ensures Linear(NextCosmos(t, step)) {
      NextKeepsLinear(t, step);
    }
    RunKeeps(NextCosmos, Linear, NextCosmos(s, Read(caller, c)), others);
  }
}
