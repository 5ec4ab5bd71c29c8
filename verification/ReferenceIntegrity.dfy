/** References resolved before anything is applied still resolve once everything is. */
module ReferenceIntegrity {
  import opened Wrappers
  import opened Domain
  import opened Rules
  import opened Reducers
  import opened Preconditions
  import opened Ledger
  import opened Invariant
  import opened Refinement
  import Continuity
  import Prediction
  import R = Replay

  /** No record of any type ever disappears. */
  ghost predicate Keeps(before: Tables, after: Tables) {
    && before.sources.Keys <= after.sources.Keys && before.claims.Keys <= after.claims.Keys
    && before.conflicts.Keys <= after.conflicts.Keys && before.decisions.Keys <= after.decisions.Keys
    && before.questions.Keys <= after.questions.Keys && before.workItems.Keys <= after.workItems.Keys
  }

  lemma ContinuityKeeps(t: Tables, op: Operation)
    requires Continuity.IsContinuityOperation(op) && Continuity.Apply(t, op).Ok?
    ensures Keeps(t, Continuity.Apply(t, op).value.tables)
  {}

  lemma ContinuityEventKeeps(t: Tables, e: Event)
    requires Continuity.IsContinuityEvent(e) && Continuity.ApplyEvent(t, e).Ok?
    ensures Keeps(t, Continuity.ApplyEvent(t, e).value)
  {
    ContinuityKeeps(t, Continuity.OperationOf(e));
  }

  lemma FactEventKeeps(registry: Registry, t: Tables, e: Event)
    requires !Continuity.IsContinuityEvent(e) && R.ApplyEvent(registry, t, e).Ok?
    ensures Keeps(t, R.ApplyEvent(registry, t, e).value)
  {}

  lemma EventKeeps(registry: Registry, t: Tables, e: Event)
    requires R.ApplyEvent(registry, t, e).Ok?
    ensures Keeps(t, R.ApplyEvent(registry, t, e).value)
  {
    if Continuity.IsContinuityEvent(e) {
      ContinuityEventKeeps(t, e);
    } else {
      FactEventKeeps(registry, t, e);
    }
  }

  lemma {:induction false} ReplayKeeps(registry: Registry, t: Tables, events: seq<Event>)
    requires R.Replay(registry, t, events).Ok?
    ensures Keeps(t, R.Replay(registry, t, events).value)
    decreases |events|
  {
    if events != [] {
      var n := |events| - 1;
      ReplayKeeps(registry, t, events[..n]);
      EventKeeps(registry, R.Replay(registry, t, events[..n]).value, events[n]);
    }
  }

  lemma AssertionLeavesRows(registry: Registry, t: Tables, claim: Claim, evidence: seq<EvidenceLink>, ignored: set<Id>,
      openedSeq: nat)
    requires AssertNewClaim(registry, t, claim, evidence, ignored, openedSeq).Ok?
    ensures
      var step := AssertNewClaim(registry, t, claim, evidence, ignored, openedSeq).value;
      claim.claimId in step.tables.claims && forall c :: c in step.touched ==> c in step.tables.conflicts
  {
    var admitted, conflicts := AssertionStep(registry, t, claim, evidence, ignored, openedSeq);
    var def := registry.predicates[claim.proposition.predicateKey];
    var first := OpenKind(admitted, claim, def, ignored, ExclusiveValue, openedSeq).value;
  }

  /** After an operation, what it introduced and the conflicts it touched exist. */
  lemma OperationDelivers(registry: Registry, proposer: Actor, openedSeq: nat, t: Tables, op: Operation)
    requires ApplyOperation(registry, proposer, openedSeq, t, op).Ok?
    ensures
      var step := ApplyOperation(registry, proposer, openedSeq, t, op).value;
      Delivers(step, op) && LeavesTouched(step)
  {
    if op.AssertClaim? {
      AssertionLeavesRows(registry, t, op.claim, op.initialEvidence, {}, openedSeq);
    } else if op.SupersedeClaim? {
      var asserted := ReplacementStep(registry, t, op.targetClaim, op.replacementClaim, op.replacementEvidence,
          op.rationale, openedSeq);
      AssertionLeavesRows(registry, t, op.replacementClaim, op.replacementEvidence, {op.targetClaim}, openedSeq);
    }
  }

  ghost predicate Delivers(step: Step, op: Operation) {
    Introduced(op).Some? ==> Exists(step.tables, Introduced(op).value.recordType, Introduced(op).value.recordId)
  }

  ghost predicate LeavesTouched(step: Step) {
    forall c :: c in step.touched ==> c in step.tables.conflicts
  }

  lemma RecordKept(before: Tables, after: Tables, ref: RecordRef)
    requires Keeps(before, after) && Exists(before, ref.recordType, ref.recordId)
    ensures Exists(after, ref.recordType, ref.recordId)
  {}

  lemma OperationKeeps(registry: Registry, proposer: Actor, openedSeq: nat, t: Tables, op: Operation)
    requires FamiliesNamePredicate(registry) && R.Sound(registry, t)
        && ApplyOperation(registry, proposer, openedSeq, t, op).Ok?
    ensures Keeps(t, ApplyOperation(registry, proposer, openedSeq, t, op).value.tables)
  {
    OperationRefines(registry, proposer, openedSeq, t, op);
    ReplayKeeps(registry, t, ApplyOperation(registry, proposer, openedSeq, t, op).value.events);
  }

  /** The steps a run of operations ends with. */
  lemma LastStep(registry: Registry, proposer: Actor, openedSeq: nat, t: Tables, ops: seq<Operation>)
      returns (before: Step, step: Step)
    requires ops != [] && ApplyOperations(registry, proposer, openedSeq, t, ops).Ok?
    ensures ApplyOperations(registry, proposer, openedSeq, t, ops[..|ops| - 1]) == Ok(before)
    ensures ApplyOperation(registry, proposer, openedSeq, before.tables, ops[|ops| - 1]) == Ok(step)
    ensures ApplyOperations(registry, proposer, openedSeq, t, ops) ==
              Ok(Step(step.tables, before.events + step.events, before.touched + step.touched))
  {
    before := ApplyOperations(registry, proposer, openedSeq, t, ops[..|ops| - 1]).value;
    step := ApplyOperation(registry, proposer, openedSeq, before.tables, ops[|ops| - 1]).value;
  }

  lemma {:induction false} OperationsDeliver(registry: Registry, proposer: Actor, openedSeq: nat, t: Tables,
      ops: seq<Operation>, i: nat, ref: RecordRef)
    requires FamiliesNamePredicate(registry) && R.Sound(registry, t)
    requires ApplyOperations(registry, proposer, openedSeq, t, ops).Ok? && i < |ops| && Introduced(ops[i]) == Some(ref)
    ensures Exists(ApplyOperations(registry, proposer, openedSeq, t, ops).value.tables, ref.recordType, ref.recordId)
    decreases |ops|
  {
    var before, step := LastStep(registry, proposer, openedSeq, t, ops);
    LastStepDelivers(registry, proposer, openedSeq, t, ops, before, step);
    if i < |ops| - 1 {
      OperationsDeliver(registry, proposer, openedSeq, t, ops[..|ops| - 1], i, ref);
      RecordKept(before.tables, step.tables, ref);
    }
  }

  lemma {:induction false} TouchedConflictsExist(registry: Registry, proposer: Actor, openedSeq: nat, t: Tables,
      ops: seq<Operation>)
    requires FamiliesNamePredicate(registry) && R.Sound(registry, t)
    requires ApplyOperations(registry, proposer, openedSeq, t, ops).Ok?
    ensures LeavesTouched(ApplyOperations(registry, proposer, openedSeq, t, ops).value)
    decreases |ops|
  {
    if ops != [] {
      var before, step := LastStep(registry, proposer, openedSeq, t, ops);
      LastStepDelivers(registry, proposer, openedSeq, t, ops, before, step);
      TouchedConflictsExist(registry, proposer, openedSeq, t, ops[..|ops| - 1]);
    }
  }

  lemma LastStepDelivers(registry: Registry, proposer: Actor, openedSeq: nat, t: Tables, ops: seq<Operation>,
      before: Step, step: Step)
    requires FamiliesNamePredicate(registry) && R.Sound(registry, t) && ops != []
    requires ApplyOperations(registry, proposer, openedSeq, t, ops[..|ops| - 1]) == Ok(before)
    requires ApplyOperation(registry, proposer, openedSeq, before.tables, ops[|ops| - 1]) == Ok(step)
    ensures Keeps(before.tables, step.tables) && Delivers(step, ops[|ops| - 1]) && LeavesTouched(step)
  {
    OperationsRefine(registry, proposer, openedSeq, t, ops[..|ops| - 1]);
    OperationKeeps(registry, proposer, openedSeq, before.tables, ops[|ops| - 1]);
    OperationDelivers(registry, proposer, openedSeq, before.tables, ops[|ops| - 1]);
  }

  /** Whatever resolved in the namespace of a proposal exists once the proposal is applied. */
  lemma NamespaceDelivered(registry: Registry, proposer: Actor, openedSeq: nat, t: Tables, ops: seq<Operation>,
      ref: RecordRef)
    requires FamiliesNamePredicate(registry) && R.Sound(registry, t)
    requires ApplyOperations(registry, proposer, openedSeq, t, ops).Ok? && InNamespace(registry, t, ops, ref)
    ensures Exists(ApplyOperations(registry, proposer, openedSeq, t, ops).value.tables, ref.recordType, ref.recordId)
  {
    var step := ApplyOperations(registry, proposer, openedSeq, t, ops).value;
    OperationsRefine(registry, proposer, openedSeq, t, ops);
    ReplayKeeps(registry, t, step.events);
    if k :| 0 <= k < |ops| && Introduced(ops[k]) == Some(ref) {
      OperationsDeliver(registry, proposer, openedSeq, t, ops, k, ref);
    } else if ref.recordType == ConflictRecord && ref.recordId in Prediction.Predicted(registry, t, ops) {
      Prediction.PredictionIsExecution(registry, proposer, openedSeq, t, ops);
      TouchedConflictsExist(registry, proposer, openedSeq, t, ops);
    }
  }

  lemma LastReferences(registry: Registry, t: Tables, ops: seq<Operation>, n: nat)
    requires n < |ops| && OperationsRefsError(registry, t, ops, n + 1).None?
    ensures OperationsRefsError(registry, t, ops, n).None?
    ensures RefsError(registry, t, ops, References(ops[n])).None?
  {}

  /** If nothing failed up to the end, nothing failed before. */
  lemma {:induction false} NoneBefore<E>(results: seq<Option<E>>, i: nat, n: nat)
    requires i <= n < |results| && results[n].None?
    requires forall k :: 0 <= k < |results| - 1 && results[k + 1].None? ==> results[k].None?
    ensures results[i].None?
    decreases n
  {
    if i < n {
      assert results[(n - 1) + 1].None?;
      NoneBefore(results, i, n - 1);
    }
  }

  lemma OneChecked(registry: Registry, t: Tables, ops: seq<Operation>, i: nat)
    requires OperationsRefsError(registry, t, ops, |ops|).None? && i < |ops|
    ensures RefsError(registry, t, ops, References(ops[i])).None?
  {
    var results := seq(|ops| + 1, k requires 0 <= k <= |ops| => OperationsRefsError(registry, t, ops, k));
    forall k | 0 <= k < |ops| && results[k + 1].None?
      ensures results[k].None?
    {
      LastReferences(registry, t, ops, k);
    }
    NoneBefore(results, i + 1, |ops|);
    LastReferences(registry, t, ops, i);
  }

  lemma ReferencesChecked(registry: Registry, t: Tables, ops: seq<Operation>, i: nat, ref: RecordRef)
    requires OperationsRefsError(registry, t, ops, |ops|).None? && i < |ops| && ref in References(ops[i])
    ensures InNamespace(registry, t, ops, ref)
  {
    OneChecked(registry, t, ops, i);
  }

  /** The checked references of operations that apply. */
  lemma ResolvedAfter(registry: Registry, proposer: Actor, openedSeq: nat, t: Tables, ops: seq<Operation>, i: nat,
      ref: RecordRef)
    requires FamiliesNamePredicate(registry) && R.Sound(registry, t) && ReferencesError(registry, t, ops).None?
    requires ApplyOperations(registry, proposer, openedSeq, t, ops).Ok? && i < |ops| && ref in References(ops[i])
    ensures Exists(ApplyOperations(registry, proposer, openedSeq, t, ops).value.tables, ref.recordType, ref.recordId)
  {
    ReferencesChecked(registry, t, ops, i, ref);
    NamespaceDelivered(registry, proposer, openedSeq, t, ops, ref);
  }

  lemma EvaluatedIsChecked(env: Env, state: State, p: Proposal)
    requires Evaluate(env, state, p).Ok?
    ensures ReferencesError(env.registry, state.tables, p.operations).None?
    ensures
      var r := ApplyOperations(env.registry, p.proposer, |state.ledger| + 1, state.tables, p.operations);
      r.Ok? && Evaluate(env, state, p).value.tables == r.value.tables
  {
    var r := Transact(env, state, p);
  }

  lemma AcceptedTables(env: Env, state: State, s: Submission)
    requires Accepts(env, state, s)
    ensures Commit(env, state, s).0.tables == Evaluate(env, state, s.proposal).value.tables
  {}

  /** Every typed reference of an accepted proposal, including one to a conflict the proposal
      itself opens, names a record of that type in the tables the commit leaves. */
  lemma AcceptedReferencesResolve(env: Env, inputs: seq<Submission>, s: Submission, i: nat, ref: RecordRef)
    requires FamiliesNamePredicate(env.registry)
    requires Accepts(env, Run(env, EMPTY_STATE, inputs), s)
    requires i < |s.proposal.operations| && ref in References(s.proposal.operations[i])
    ensures Exists(Commit(env, Run(env, EMPTY_STATE, inputs), s).0.tables, ref.recordType, ref.recordId)
  {
    var state := Run(env, EMPTY_STATE, inputs);
    ReachableIsGood(env, inputs);
    AcceptedTables(env, state, s);
    EvaluatedIsChecked(env, state, s.proposal);
    ResolvedAfter(env.registry, s.proposal.proposer, |state.ledger| + 1, state.tables, s.proposal.operations, i, ref);
  }
}
