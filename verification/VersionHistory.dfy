/** Versions count recorded mutations, so no accepted update is ever lost. */
module VersionHistory {
  import opened Wrappers
  import opened Domain
  import opened Rules
  import opened Reducers
  import opened Preconditions
  import opened Ledger
  import opened Invariant
  import opened Refinement
  import Continuity
  import Idempotency
  import R = Replay

  /** How often an event writes an aggregate: its creation and each later mutation. */
  function Writes(e: Event, target: Target): nat {
    var id := target.id;
    match target.kind
    case SourceRevision => 0
    case ClaimRecord =>
      (match e
       case ClaimAsserted(claim, _) => if claim.claimId == id then 1 else 0
       case EvidenceAttached(link) => if link.claimId == id then 1 else 0
       case ClaimSuperseded(c, _, _) => if c == id then 1 else 0
       case ClaimRetracted(c, _, _, _) => if c == id then 1 else 0
       case _ => 0)
    case ConflictRecord =>
      (match e
       case ConflictOpened(conflict) => if conflict.conflictId == id then 1 else 0
       case ConflictResolved(c, _) => if c == id then 1 else 0
       case _ => 0)
    case DecisionRecord =>
      (match e
       case DecisionRecorded(decision) => if decision.decisionId == id then 1 else 0
       case DecisionReplaced(d, _, replacement, _, _, _) => if d == id || replacement.decisionId == id then 1 else 0
       case _ => 0)
    case QuestionRecord =>
      (match e
       case QuestionOpened(question) => if question.questionId == id then 1 else 0
       case QuestionAnsweredEvent(q, _, _, _) => if q == id then 1 else 0
       case QuestionDroppedEvent(q, _, _, _) => if q == id then 1 else 0
       case _ => 0)
    case WorkItemRecord =>
      (match e
       case WorkItemCreated(item) => if item.workItemId == id then 1 else 0
       case WorkItemUpdated(w, _, _, _, _, _, _, _, _) => if w == id then 1 else 0
       case _ => 0)
  }

  function CountWrites(events: seq<Event>, target: Target): nat
    decreases |events|
  {
    if events == [] then 0 else CountWrites(events[..|events| - 1], target) + Writes(events[|events| - 1], target)
  }

  lemma {:induction false} CountAppend(first: seq<Event>, second: seq<Event>, target: Target)
    ensures CountWrites(first + second, target) == CountWrites(first, target) + CountWrites(second, target)
    decreases |second|
  {
    if second == [] {
      assert first + second == first;
    } else {
      var n := |second| - 1;
      assert (first + second)[..|first + second| - 1] == first + second[..n];
      CountAppend(first, second[..n], target);
    }
  }

  lemma ContinuityEventVersions(t: Tables, e: Event, target: Target)
    requires target.kind != SourceRevision && Continuity.IsContinuityEvent(e) && Continuity.ApplyEvent(t, e).Ok?
    ensures VersionOf(Continuity.ApplyEvent(t, e).value, target.kind, target.id)
         == VersionOf(t, target.kind, target.id) + Writes(e, target)
  {}

  lemma FactEventVersions(registry: Registry, t: Tables, e: Event, target: Target)
    requires target.kind != SourceRevision && R.ApplyEvent(registry, t, e).Ok? && !Continuity.IsContinuityEvent(e)
    ensures VersionOf(R.ApplyEvent(registry, t, e).value, target.kind, target.id)
         == VersionOf(t, target.kind, target.id) + Writes(e, target)
  {}

  lemma EventVersions(registry: Registry, t: Tables, e: Event, target: Target)
    requires target.kind != SourceRevision && R.ApplyEvent(registry, t, e).Ok?
    ensures VersionOf(R.ApplyEvent(registry, t, e).value, target.kind, target.id)
         == VersionOf(t, target.kind, target.id) + Writes(e, target)
  {
    if Continuity.IsContinuityEvent(e) {
      ContinuityEventVersions(t, e, target);
    } else {
      FactEventVersions(registry, t, e, target);
    }
  }

  lemma {:induction false} ReplayVersions(registry: Registry, t: Tables, events: seq<Event>, target: Target)
    requires target.kind != SourceRevision && R.Replay(registry, t, events).Ok?
    ensures VersionOf(R.Replay(registry, t, events).value, target.kind, target.id)
         == VersionOf(t, target.kind, target.id) + CountWrites(events, target)
    decreases |events|
  {
    if events != [] {
      var n := |events| - 1;
      ReplayVersions(registry, t, events[..n], target);
      EventVersions(registry, R.Replay(registry, t, events[..n]).value, events[n], target);
    }
  }

  /** In every run, the version of an aggregate is the number of recorded events that wrote it:
      versions never reset and grow by exactly one per recorded mutation. */
  lemma VersionCountsWrites(env: Env, inputs: seq<Submission>, target: Target)
    requires FamiliesNamePredicate(env.registry) && target.kind != SourceRevision
    ensures
      var state := Run(env, EMPTY_STATE, inputs);
      VersionOf(state.tables, target.kind, target.id) == CountWrites(History(state.ledger), target)
  {
    ReplayRefinesCommit(env, inputs);
    ReplayVersions(env.registry, EMPTY_TABLES, History(Run(env, EMPTY_STATE, inputs).ledger), target);
  }

  // ----------------------------------------------------------------- no lost update

  ghost predicate Mutates(ops: seq<Operation>, target: Target) {
    exists k :: 0 <= k < |ops| && RequiredRead(ops[k]) == Some(target)
  }

  ghost predicate PinsAt(readSet: seq<Read>, target: Target, version: nat) {
    AggregateRead(target.kind, target.id, version) in readSet
  }

  lemma MutationWrites(registry: Registry, proposer: Actor, openedSeq: nat, t: Tables, op: Operation)
    requires RequiredRead(op).Some? && ApplyOperation(registry, proposer, openedSeq, t, op).Ok?
    ensures CountWrites(ApplyOperation(registry, proposer, openedSeq, t, op).value.events, RequiredRead(op).value) >= 1
  {
    var events := ApplyOperation(registry, proposer, openedSeq, t, op).value.events;
    var last := events[|events| - 1];
    assert Writes(last, RequiredRead(op).value) == 1;
  }

  lemma {:induction false} MutationsWrite(registry: Registry, proposer: Actor, openedSeq: nat, t: Tables,
      ops: seq<Operation>, k: nat)
    requires k < |ops| && RequiredRead(ops[k]).Some? && ApplyOperations(registry, proposer, openedSeq, t, ops).Ok?
    ensures CountWrites(ApplyOperations(registry, proposer, openedSeq, t, ops).value.events,
        RequiredRead(ops[k]).value) >= 1
    decreases |ops|
  {
    var n := |ops| - 1;
    var target := RequiredRead(ops[k]).value;
    var before := ApplyOperations(registry, proposer, openedSeq, t, ops[..n]).value;
    var step := ApplyOperation(registry, proposer, openedSeq, before.tables, ops[n]).value;
    CountAppend(before.events, step.events, target);
    if k == n {
      MutationWrites(registry, proposer, openedSeq, before.tables, ops[n]);
    } else {
      MutationsWrite(registry, proposer, openedSeq, t, ops[..n], k);
    }
  }

  /** An accepted proposal saw exactly the version it pinned. */
  lemma AcceptedSawPin(env: Env, state: State, s: Submission, target: Target, version: nat)
    requires Accepts(env, state, s) && PinsAt(s.proposal.readSet, target, version)
    ensures VersionOf(state.tables, target.kind, target.id) == version
  {
    var p := s.proposal;
    assert ReadsError(env.registry, state.tables, p.readSet).None?;
    var i :| 0 <= i < |p.readSet| && p.readSet[i] == AggregateRead(target.kind, target.id, version);
    assert ReadError(env.registry, state.tables, p.readSet[i]).None?;
  }

  lemma MutationGrows(registry: Registry, proposer: Actor, openedSeq: nat, t: Tables, ops: seq<Operation>,
      target: Target)
    requires FamiliesNamePredicate(registry) && R.Sound(registry, t) && Mutates(ops, target)
    requires target.kind != SourceRevision && ApplyOperations(registry, proposer, openedSeq, t, ops).Ok?
    ensures
      var after := ApplyOperations(registry, proposer, openedSeq, t, ops).value.tables;
      VersionOf(after, target.kind, target.id) > VersionOf(t, target.kind, target.id)
  {
    OperationsRefine(registry, proposer, openedSeq, t, ops);
    var k :| 0 <= k < |ops| && RequiredRead(ops[k]) == Some(target);
    MutationsWrite(registry, proposer, openedSeq, t, ops, k);
    ReplayVersions(registry, t, ApplyOperations(registry, proposer, openedSeq, t, ops).value.events, target);
  }

  lemma AcceptedMutationGrows(env: Env, state: State, s: Submission, target: Target)
    requires FamiliesNamePredicate(env.registry) && Good(env, state) && Accepts(env, state, s)
    requires Mutates(s.proposal.operations, target) && target.kind != SourceRevision
    ensures VersionOf(Commit(env, state, s).0.tables, target.kind, target.id) > VersionOf(state.tables, target.kind,
        target.id)
  {
    CommitEffect(env, state, s);
    MutationGrows(env.registry, s.proposal.proposer, |state.ledger| + 1, state.tables, s.proposal.operations, target);
  }

  lemma {:induction false} HistoryGrows(before: seq<Entry>, after: seq<Entry>, target: Target)
    requires before <= after
    ensures CountWrites(History(before), target) <= CountWrites(History(after), target)
    decreases |after|
  {
    if |before| < |after| {
      var n := |after| - 1;
      HistoryGrows(before, after[..n], target);
      CountAppend(History(after[..n]), after[n].events, target);
    } else {
      assert before == after;
    }
  }

  /** From one reachable state to a later one, versions never fall. */
  lemma VersionsNeverFall(env: Env, inputs: seq<Submission>, i: nat, j: nat, target: Target)
    requires FamiliesNamePredicate(env.registry) && target.kind != SourceRevision && i <= j <= |inputs|
    ensures VersionOf(Run(env, EMPTY_STATE, inputs[..i]).tables, target.kind, target.id)
         <= VersionOf(Run(env, EMPTY_STATE, inputs[..j]).tables, target.kind, target.id)
  {
    assert inputs[..j] == inputs[..i] + inputs[i..j];
    RunSplit(env, EMPTY_STATE, inputs[..i], inputs[i..j]);
    Idempotency.LogsGrow(env, Run(env, EMPTY_STATE, inputs[..i]), inputs[i..j]);
    HistoryGrows(Run(env, EMPTY_STATE, inputs[..i]).ledger, Run(env, EMPTY_STATE, inputs[..j]).ledger, target);
    VersionCountsWrites(env, inputs[..i], target);
    VersionCountsWrites(env, inputs[..j], target);
  }

  /** No lost update: over any interleaving of commits, accepted proposals that pin the same
      aggregate and mutate it were accepted at strictly increasing versions. In particular two
      of them never pinned the same version. */
  lemma NoLostUpdate(env: Env, inputs: seq<Submission>, i: nat, j: nat, target: Target, first: nat, second: nat)
    requires FamiliesNamePredicate(env.registry) && target.kind != SourceRevision
    requires i < j < |inputs|
    requires Accepts(env, Run(env, EMPTY_STATE, inputs[..i]), inputs[i])
    requires Accepts(env, Run(env, EMPTY_STATE, inputs[..j]), inputs[j])
    requires Mutates(inputs[i].proposal.operations, target)
    requires PinsAt(inputs[i].proposal.readSet, target, first) && PinsAt(inputs[j].proposal.readSet, target, second)
    ensures first < second
  {
    AcceptedSawPin(env, Run(env, EMPTY_STATE, inputs[..i]), inputs[i], target, first);
    AcceptedSawPin(env, Run(env, EMPTY_STATE, inputs[..j]), inputs[j], target, second);
    ReachableIsGood(env, inputs[..i]);
    AcceptedMutationGrows(env, Run(env, EMPTY_STATE, inputs[..i]), inputs[i], target);
    assert inputs[..i + 1][..i] == inputs[..i];
    VersionsNeverFall(env, inputs, i + 1, j, target);
  }
}
