/** What every reachable kernel state satisfies: sound tables, a chained ledger whose every
    entry replays, and a receipt log in step with the ledger. */
module Invariant {
  import opened Wrappers
  import opened Domain
  import opened Rules
  import opened Reducers
  import opened Preconditions
  import opened Ledger
  import opened Refinement
  import R = Replay
  import Prediction

  // ---------------------------------------------------------------------- ledger

  function TablesAfter(ledger: seq<Entry>): Tables {
    if ledger == [] then EMPTY_TABLES else ledger[|ledger| - 1].postRoot.tables
  }

  ghost predicate EntrySound(env: Env, earlier: seq<Entry>, e: Entry) {
    && e == MakeEntry(earlier, e.proposal, e.events, TablesAfter(earlier), e.postRoot.tables)
    && env.contract.proposalValid(e.proposal)
    && VersionsError(env.registry, e.proposal.versions).None?
    && ReferencesError(env.registry, TablesAfter(earlier), e.proposal.operations).None?
    && R.Replay(env.registry, TablesAfter(earlier), e.events) == Ok(e.postRoot.tables)
    && R.Sound(env.registry, e.postRoot.tables)
    && env.contract.entryValid(e.document)
  }

  ghost predicate EntrySoundAt(env: Env, ledger: seq<Entry>, i: nat)
    requires i < |ledger|
  {
    EntrySound(env, ledger[..i], ledger[i])
  }

  ghost predicate LedgerSound(env: Env, ledger: seq<Entry>) {
    forall i {:trigger EntrySoundAt(env, ledger, i)} :: 0 <= i < |ledger| ==> EntrySoundAt(env, ledger, i)
  }

  /** All recorded events in order. */
  function History(ledger: seq<Entry>): seq<Event>
    decreases |ledger|
  {
    if ledger == [] then [] else History(ledger[..|ledger| - 1]) + ledger[|ledger| - 1].events
  }

  // -------------------------------------------------------------------- receipts

  /** How many ledger entries the receipts account for. */
  function AcceptedCount(receipts: seq<Receipt>): nat
    decreases |receipts|
  {
    if receipts == [] then 0
    else AcceptedCount(receipts[..|receipts| - 1]) + if receipts[|receipts| - 1].ledgerSeq.Some? then 1 else 0
  }

  function OpenedIn(events: seq<Event>): set<Id> {
    set i | 0 <= i < |events| && events[i].ConflictOpened? :: events[i].conflict.conflictId
  }

  /** The receipt written for an accepted proposal. */
  function AcceptedReceipt(contract: Contract, ordinal: nat, e: Entry): Receipt {
    var outcome := if OpenedIn(e.events) == {} then Committed else FactConflict;
    MakeReceipt(contract, ordinal, Encoded(e.proposal, false, false), outcome, [], Some(e), None, e.postRoot,
        OpenedIn(e.events))
  }

  ghost predicate Rejected(contract: Contract, ordinal: nat, head: Option<EntryHash>, root: StateRoot, r: Receipt) {
    exists s, failure: Failure ::
        r == MakeReceipt(contract, ordinal, s, OutcomeOf(failure), [failure.code], None, head, root, {})
  }

  ghost predicate ReceiptSound(env: Env, ledger: seq<Entry>, earlier: seq<Receipt>, r: Receipt) {
    var n := AcceptedCount(earlier);
    if r.ledgerSeq.Some? then n < |ledger| && r == AcceptedReceipt(env.contract, |earlier| + 1, ledger[n])
    else n <= |ledger| && Rejected(env.contract, |earlier| + 1, Head(ledger[..n]), StateRoot(TablesAfter(ledger[..n])),
        r)
  }

  ghost predicate ReceiptSoundAt(env: Env, ledger: seq<Entry>, receipts: seq<Receipt>, i: nat)
    requires i < |receipts|
  {
    ReceiptSound(env, ledger, receipts[..i], receipts[i])
  }

  ghost predicate ReceiptsSound(env: Env, ledger: seq<Entry>, receipts: seq<Receipt>) {
    && AcceptedCount(receipts) == |ledger|
    && forall i {:trigger ReceiptSoundAt(env, ledger, receipts, i)} ::
        0 <= i < |receipts| ==> ReceiptSoundAt(env, ledger, receipts, i)
  }

  ghost predicate Good(env: Env, s: State) {
    && R.Sound(env.registry, s.tables)
    && s.tables == TablesAfter(s.ledger)
    && LedgerSound(env, s.ledger)
    && ReceiptsSound(env, s.ledger, s.receipts)
  }

  // -------------------------------------------------------------- one commit keeps it

  lemma {:induction false} CountMonotone(receipts: seq<Receipt>, i: nat)
    requires i <= |receipts|
    ensures AcceptedCount(receipts[..i]) <= AcceptedCount(receipts)
    decreases |receipts|
  {
    if i < |receipts| {
      var n := |receipts| - 1;
      CountMonotone(receipts[..n], i);
      assert receipts[..n][..i] == receipts[..i];
    } else {
      assert receipts[..i] == receipts;
    }
  }

  lemma PrefixSound(env: Env, ledger: seq<Entry>, n: nat)
    requires LedgerSound(env, ledger) && n <= |ledger|
    ensures LedgerSound(env, ledger[..n])
  {
    forall i | 0 <= i < n
      ensures EntrySoundAt(env, ledger[..n], i)
    {
      assert ledger[..n][..i] == ledger[..i];
      assert EntrySoundAt(env, ledger, i);
    }
  }

  lemma LedgerAppend(env: Env, ledger: seq<Entry>, e: Entry)
    requires LedgerSound(env, ledger) && EntrySound(env, ledger, e)
    ensures LedgerSound(env, ledger + [e])
  {
    forall i | 0 <= i < |ledger + [e]|
      ensures EntrySoundAt(env, ledger + [e], i)
    {
      assert (ledger + [e])[..i] == ledger[..i];
      if i < |ledger| {
        assert EntrySoundAt(env, ledger, i);
      } else {
        assert ledger[..i] == ledger;
      }
    }
  }

  lemma ReceiptAppend(env: Env, ledger: seq<Entry>, ledger': seq<Entry>, receipts: seq<Receipt>, r: Receipt)
    requires ReceiptsSound(env, ledger, receipts)
    requires |ledger| <= |ledger'| && ledger'[..|ledger|] == ledger
    requires ReceiptSound(env, ledger', receipts, r)
    requires |ledger'| == |ledger| + if r.ledgerSeq.Some? then 1 else 0
    ensures ReceiptsSound(env, ledger', receipts + [r])
  {
    var all := receipts + [r];
    assert all[..|receipts|] == receipts;
    forall i | 0 <= i < |all|
      ensures ReceiptSoundAt(env, ledger', all, i)
    {
      if i < |receipts| {
        assert all[..i] == receipts[..i];
        CountMonotone(receipts, i);
        var n := AcceptedCount(receipts[..i]);
        assert ledger'[..n] == ledger[..n];
        assert ReceiptSoundAt(env, ledger, receipts, i);
      }
    }
  }

  lemma RejectKeepsGood(env: Env, state: State, s: Submission, failure: Failure)
    requires Good(env, state)
    ensures Good(env, Reject(env, state, s, failure).0)
  {
    var r := Rejection(env.contract, state, s, failure);
    assert state.ledger[..|state.ledger|] == state.ledger;
    ReceiptAppend(env, state.ledger, state.ledger, state.receipts, r);
  }

  lemma {:induction false} TouchedAreOpened(registry: Registry, proposer: Actor, openedSeq: nat, t: Tables,
      ops: seq<Operation>)
    requires ApplyOperations(registry, proposer, openedSeq, t, ops).Ok?
    ensures
      var step := ApplyOperations(registry, proposer, openedSeq, t, ops).value;
      OpenedIn(step.events) == Prediction.Ids(step.touched)
    decreases |ops|
  {
    if ops != [] {
      var n := |ops| - 1;
      TouchedAreOpened(registry, proposer, openedSeq, t, ops[..n]);
      var before := ApplyOperations(registry, proposer, openedSeq, t, ops[..n]).value;
      TouchedAreOpenedByOne(registry, proposer, openedSeq, before.tables, ops[n]);
      var step := ApplyOperation(registry, proposer, openedSeq, before.tables, ops[n]).value;
      OpenedAppend(before.events, step.events);
      Prediction.IdsAppend(before.touched, step.touched);
    }
  }

  lemma OpenedAppend(first: seq<Event>, second: seq<Event>)
    ensures OpenedIn(first + second) == OpenedIn(first) + OpenedIn(second)
  {
    var all := first + second;
    forall c | c in OpenedIn(second)
      ensures c in OpenedIn(all)
    {
      var i :| 0 <= i < |second| && second[i].ConflictOpened? && second[i].conflict.conflictId == c;
      assert all[|first| + i] == second[i];
    }
    forall c | c in OpenedIn(first)
      ensures c in OpenedIn(all)
    {
      var i :| 0 <= i < |first| && first[i].ConflictOpened? && first[i].conflict.conflictId == c;
      assert all[i] == first[i];
    }
  }

  lemma OpenKindOpened(t: Tables, incoming: Claim, def: Predicate, ignored: set<Id>, kind: ConflictKind, openedSeq: nat)
    requires OpenKind(t, incoming, def, ignored, kind, openedSeq).Ok?
    ensures
      var step := OpenKind(t, incoming, def, ignored, kind, openedSeq).value;
      OpenedIn(step.events) == Prediction.Ids(step.touched)
  {
    var step := OpenKind(t, incoming, def, ignored, kind, openedSeq).value;
    if step.events != [] {
      assert step.events[0].ConflictOpened? && step.events[0].conflict.conflictId == step.touched[0];
      assert OpenedIn(step.events) == {step.touched[0]} == Prediction.Ids(step.touched);
    }
  }

  lemma AssertOpened(registry: Registry, t: Tables, claim: Claim, evidence: seq<EvidenceLink>, ignored: set<Id>,
      openedSeq: nat)
    requires AssertNewClaim(registry, t, claim, evidence, ignored, openedSeq).Ok?
    ensures
      var step := AssertNewClaim(registry, t, claim, evidence, ignored, openedSeq).value;
      OpenedIn(step.events) == Prediction.Ids(step.touched)
  {
    var admitted, conflicts := AssertionStep(registry, t, claim, evidence, ignored, openedSeq);
    var def := registry.predicates[claim.proposition.predicateKey];
    var first := OpenKind(admitted, claim, def, ignored, ExclusiveValue, openedSeq).value;
    var second := OpenKind(first.tables, claim, def, ignored, PolarityClash, openedSeq).value;
    OpenKindOpened(admitted, claim, def, ignored, ExclusiveValue, openedSeq);
    OpenKindOpened(first.tables, claim, def, ignored, PolarityClash, openedSeq);
    OpenedAppend(first.events, second.events);
    Prediction.IdsAppend(first.touched, second.touched);
    assert OpenedIn([ClaimAsserted(claim, evidence)]) == {};
    OpenedAppend([ClaimAsserted(claim, evidence)], conflicts.events);
  }

  lemma TouchedAreOpenedByOne(registry: Registry, proposer: Actor, openedSeq: nat, t: Tables, op: Operation)
    requires ApplyOperation(registry, proposer, openedSeq, t, op).Ok?
    ensures
      var step := ApplyOperation(registry, proposer, openedSeq, t, op).value;
      OpenedIn(step.events) == Prediction.Ids(step.touched)
  {
    if op.AssertClaim? {
      AssertOpened(registry, t, op.claim, op.initialEvidence, {}, openedSeq);
    } else if op.SupersedeClaim? {
      var asserted := ReplacementStep(registry, t, op.targetClaim, op.replacementClaim, op.replacementEvidence,
          op.rationale, openedSeq);
      AssertOpened(registry, t, op.replacementClaim, op.replacementEvidence, {op.targetClaim}, openedSeq);
      var e := ClaimSuperseded(op.targetClaim, op.replacementClaim.claimId, op.rationale);
      assert OpenedIn([e]) == {};
      OpenedAppend(asserted.events, [e]);
    } else {
      var step := ApplyOperation(registry, proposer, openedSeq, t, op).value;
      assert |step.events| == 1 && !step.events[0].ConflictOpened? && step.touched == [];
      assert OpenedIn(step.events) == {} == Prediction.Ids(step.touched);
    }
  }

  lemma EvaluatedStep(env: Env, state: State, p: Proposal) returns (step: Step)
    requires Evaluate(env, state, p).Ok?
    ensures ApplyOperations(env.registry, p.proposer, |state.ledger| + 1, state.tables, p.operations) == Ok(step)
    ensures Evaluate(env, state, p).value == Accepted(step.tables,
        MakeEntry(state.ledger, p, step.events, state.tables, step.tables), Prediction.Ids(step.touched))
    ensures env.contract.proposalValid(p) && env.contract.entryValid(Evaluate(env, state, p).value.entry.document)
  {
    step := ApplyOperations(env.registry, p.proposer, |state.ledger| + 1, state.tables, p.operations).value;
  }

  lemma AcceptedEntrySound(env: Env, state: State, p: Proposal)
    requires FamiliesNamePredicate(env.registry) && Good(env, state) && Evaluate(env, state, p).Ok?
    ensures
      var accepted := Evaluate(env, state, p).value;
      && EntrySound(env, state.ledger, accepted.entry) && R.Sound(env.registry, accepted.tables)
      && accepted.entry.postRoot == StateRoot(accepted.tables)
      && accepted.entry.seq_ == |state.ledger| + 1 && accepted.conflictIds == OpenedIn(accepted.entry.events)
  {
    var step := EvaluatedStep(env, state, p);
    OperationsRefine(env.registry, p.proposer, |state.ledger| + 1, state.tables, p.operations);
    TouchedAreOpened(env.registry, p.proposer, |state.ledger| + 1, state.tables, p.operations);
  }

  lemma AppendKeepsGood(env: Env, state: State, tables: Tables, e: Entry)
    requires Good(env, state) && EntrySound(env, state.ledger, e) && R.Sound(env.registry, tables)
    requires e.postRoot == StateRoot(tables) && e.seq_ == |state.ledger| + 1
    ensures
      var r := AcceptedReceipt(env.contract, |state.receipts| + 1, e);
      Good(env, State(tables, state.ledger + [e], state.receipts + [r]))
  {
    var ledger' := state.ledger + [e];
    LedgerAppend(env, state.ledger, e);
    assert ledger'[..|state.ledger|] == state.ledger;
    ReceiptAppend(env, state.ledger, ledger', state.receipts, AcceptedReceipt(env.contract, |state.receipts| + 1, e));
  }

  lemma AcceptKeepsGood(env: Env, state: State, s: Submission)
    requires FamiliesNamePredicate(env.registry) && Good(env, state) && Accepts(env, state, s)
    ensures
      var accepted := Evaluate(env, state, s.proposal).value;
      && Good(env, Accept(env, state, s, accepted).0)
      && Accept(env, state, s, accepted).1 == AcceptedReceipt(env.contract, |state.receipts| + 1, accepted.entry)
      && EntrySound(env, state.ledger, accepted.entry)
  {
    var accepted := Evaluate(env, state, s.proposal).value;
    AcceptedEntrySound(env, state, s.proposal);
    AppendKeepsGood(env, state, accepted.tables, accepted.entry);
    assert Accept(env, state, s, accepted).1 == AcceptedReceipt(env.contract, |state.receipts| + 1, accepted.entry);
  }

  lemma CommitKeepsGood(env: Env, state: State, s: Submission)
    requires FamiliesNamePredicate(env.registry) && Good(env, state)
    ensures Good(env, Commit(env, state, s).0)
  {
    if Accepts(env, state, s) {
      AcceptKeepsGood(env, state, s);
    } else {
      var preflight := Preflight(s);
      if preflight.Some? {
        RejectKeepsGood(env, state, s, Invalid(preflight.value));
      } else if FirstByKey(state.receipts, KeyOf(s)).Some? {
        RejectKeepsGood(env, state, s, Invalid(IdempotencyKeyReuse));
      } else {
        RejectKeepsGood(env, state, s, Evaluate(env, state, s.proposal).error);
      }
    }
  }

  /** What an accepted commit does, and that no other commit touches tables or ledger. */
  lemma CommitEffect(env: Env, state: State, s: Submission)
    ensures
      var after := Commit(env, state, s).0;
      if Accepts(env, state, s) then
        var p := s.proposal;
        var applied := ApplyOperations(env.registry, p.proposer, |state.ledger| + 1, state.tables, p.operations);
        && applied.Ok? && after.tables == applied.value.tables
        && state.ledger <= after.ledger && History(after.ledger) == History(state.ledger) + applied.value.events
      else after.tables == state.tables && after.ledger == state.ledger
  {
    if Accepts(env, state, s) {
      var entry := Evaluate(env, state, s.proposal).value.entry;
      assert (state.ledger + [entry])[..|state.ledger|] == state.ledger;
    }
  }

  lemma EmptyIsGood(env: Env)
    ensures Good(env, EMPTY_STATE)
  {}

  /** Whatever is submitted, in whatever order, every state reached is good. */
  lemma {:induction false} ReachableIsGood(env: Env, inputs: seq<Submission>)
    requires FamiliesNamePredicate(env.registry)
    ensures Good(env, Run(env, EMPTY_STATE, inputs))
    decreases |inputs|
  {
    if inputs == [] {
      EmptyIsGood(env);
    } else {
      ReachableIsGood(env, inputs[..|inputs| - 1]);
      CommitKeepsGood(env, Run(env, EMPTY_STATE, inputs[..|inputs| - 1]), inputs[|inputs| - 1]);
    }
  }

  // -------------------------------------------------------- replay of the whole ledger

  lemma {:induction false} LedgerReplays(env: Env, ledger: seq<Entry>)
    requires LedgerSound(env, ledger)
    ensures R.Replay(env.registry, EMPTY_TABLES, History(ledger)) == Ok(TablesAfter(ledger))
    decreases |ledger|
  {
    if ledger != [] {
      var n := |ledger| - 1;
      var earlier := ledger[..n];
      PrefixSound(env, ledger, n);
      LedgerReplays(env, earlier);
      assert EntrySoundAt(env, ledger, n);
      R.ReplayAppend(env.registry, EMPTY_TABLES, History(earlier), ledger[n].events);
    }
  }

  /** In every run: alter the versions or statuses of one recorded continuity event, and replay refuses it. */
  lemma AlteredHistoryIsRefused(env: Env, inputs: seq<Submission>, i: nat, altered: Event)
    requires FamiliesNamePredicate(env.registry)
    requires i < |History(Run(env, EMPTY_STATE, inputs).ledger)|
    requires
      var recorded := History(Run(env, EMPTY_STATE, inputs).ledger)[i];
      R.SameOperation(recorded, altered) && altered != recorded
    ensures R.Replay(env.registry, EMPTY_TABLES, History(Run(env, EMPTY_STATE, inputs).ledger)[i := altered])
         == Err(Invalid(ReplayTransitionMismatch))
  {
    ReplayRefinesCommit(env, inputs);
    R.AlteredVersionIsRefused(env.registry, EMPTY_TABLES, History(Run(env, EMPTY_STATE, inputs).ledger), i, altered);
  }

  /** Replay refines commit: for every run of commits, replaying the recorded events into an
      empty target succeeds and rebuilds exactly the tables the commits left. */
  lemma ReplayRefinesCommit(env: Env, inputs: seq<Submission>)
    requires FamiliesNamePredicate(env.registry)
    ensures
      var state := Run(env, EMPTY_STATE, inputs);
      R.Replay(env.registry, EMPTY_TABLES, History(state.ledger)) == Ok(state.tables)
  {
    ReachableIsGood(env, inputs);
    LedgerReplays(env, Run(env, EMPTY_STATE, inputs).ledger);
  }
}
