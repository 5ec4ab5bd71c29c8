/** Idempotent, atomic commits: what resubmission and rejection leave untouched. */
module Idempotency {
  import opened Wrappers
  import opened Domain
  import opened Ledger
  import opened Sequences

  /** The receipt log only ever grows at its end, and so does the ledger. */
  lemma {:induction false} LogsGrow(env: Env, state: State, inputs: seq<Submission>)
    ensures state.receipts <= Run(env, state, inputs).receipts
    ensures state.ledger <= Run(env, state, inputs).ledger
    decreases |inputs|
  {
    if inputs != [] {
      LogsGrow(env, state, inputs[..|inputs| - 1]);
    }
  }

  lemma FirstStays(receipts: seq<Receipt>, later: seq<Receipt>, key: string)
    requires receipts <= later && FirstByKey(receipts, key).Some?
    ensures FirstByKey(later, key) == FirstByKey(receipts, key)
  {
    var i, j := FirstByKey(receipts, key).value, FirstByKey(later, key);
    assert later[i] == receipts[i];
  }

  /** A rejected proposal adds exactly one receipt; tables, ledger and head stay as they are,
      and the receipt carries that head and root. */
  lemma NewRejection(env: Env, state: State, s: Submission)
    requires !Accepts(env, state, s) && Commit(env, state, s).0 != state
    ensures
      var (after, r) := Commit(env, state, s);
      && after == State(state.tables, state.ledger, state.receipts + [r])
      && r.outcome in {TransactionConflict, ValidationError} && r.ledgerSeq.None? && r.conflictIds == {}
      && r.stateRoot == StateRoot(state.tables)
      && r.document.headBefore == r.document.headAfter == Head(state.ledger)
  {}

  lemma CommittedIsKnown(env: Env, state: State, s: Submission)
    requires Preflight(s).None?
    ensures
      var (after, receipt) := Commit(env, state, s);
      var first := FirstByKey(after.receipts, KeyOf(s));
      && first.Some?
      && (FirstByKey(state.receipts, KeyOf(s)).None? ==>
            after.receipts[first.value] == receipt && receipt.proposalHash == HashOf(s))
  {
    var (after, receipt) := Commit(env, state, s);
    if FirstByKey(state.receipts, KeyOf(s)).Some? {
      FirstStays(state.receipts, after.receipts, KeyOf(s));
    }
  }

  lemma KnownIsAnswered(env: Env, state: State, s: Submission, first: nat)
    requires Preflight(s).None? && FirstByKey(state.receipts, KeyOf(s)) == Some(first)
    ensures Commit(env, state, s).0 == state <==> state.receipts[first].proposalHash == HashOf(s)
    ensures state.receipts[first].proposalHash == HashOf(s) ==> Commit(env, state, s).1 == state.receipts[first]
  {
    assert state.receipts != state.receipts + [Rejection(env.contract, state, s, Invalid(IdempotencyKeyReuse))];
  }

  /** After any preflight-passing submission, whatever happens in between, submitting it again
      returns the first receipt stored under its key and changes nothing, exactly when that
      receipt is for this very proposal. For a key not used before, it always is. */
  lemma ResubmissionIsIdempotent(env: Env, state: State, s: Submission, between: seq<Submission>)
    requires Preflight(s).None?
    ensures
      var (after, receipt) := Commit(env, state, s);
      var later := Run(env, after, between);
      var first := FirstByKey(after.receipts, KeyOf(s));
      && first.Some?
      && (Commit(env, later, s).0 == later <==> after.receipts[first.value].proposalHash == HashOf(s))
      && (after.receipts[first.value].proposalHash == HashOf(s) ==>
          Commit(env, later, s).1 == after.receipts[first.value])
      && (FirstByKey(state.receipts, KeyOf(s)).None? ==>
            after.receipts[first.value] == receipt && receipt.proposalHash == HashOf(s))
  {
    var after := Commit(env, state, s).0;
    CommittedIsKnown(env, state, s);
    LogsGrow(env, after, between);
    FirstStays(after.receipts, Run(env, after, between).receipts, KeyOf(s));
    KnownIsAnswered(env, Run(env, after, between), s, FirstByKey(after.receipts, KeyOf(s)).value);
  }

  ghost predicate Receipted(receipts: seq<Receipt>, key: string) {
    exists k :: 0 <= k < |receipts| && receipts[k].key == key
  }

  lemma ReceiptedStays(receipts: seq<Receipt>, later: seq<Receipt>, key: string)
    requires receipts <= later && Receipted(receipts, key)
    ensures Receipted(later, key)
  {
    var k :| 0 <= k < |receipts| && receipts[k].key == key;
    assert later[k] == receipts[k];
  }

  ghost predicate KeysOnce(state: State) {
    && (forall i, j ::
        0 <= i < j < |state.ledger| ==>
        state.ledger[i].proposal.idempotencyKey != state.ledger[j].proposal.idempotencyKey)
    && (forall i :: 0 <= i < |state.ledger| ==> Receipted(state.receipts, state.ledger[i].proposal.idempotencyKey))
  }

  lemma OneMoreKey(state: State, after: State, entry: Entry, receipt: Receipt)
    requires KeysOnce(state) && receipt.key == entry.proposal.idempotencyKey
    requires FirstByKey(state.receipts, receipt.key).None?
    requires after.ledger == state.ledger + [entry] && after.receipts == state.receipts + [receipt]
    ensures KeysOnce(after)
  {
    assert after.receipts[|state.receipts|] == receipt;
    forall i | 0 <= i < |after.ledger|
      ensures Receipted(after.receipts, after.ledger[i].proposal.idempotencyKey)
      ensures i < |state.ledger| ==> after.ledger[i].proposal.idempotencyKey != receipt.key
    {
      if i < |state.ledger| {
        assert Receipted(state.receipts, state.ledger[i].proposal.idempotencyKey);
        ReceiptedStays(state.receipts, after.receipts, state.ledger[i].proposal.idempotencyKey);
      }
    }
  }

  lemma AcceptKeepsKeysOnce(env: Env, state: State, s: Submission)
    requires KeysOnce(state) && Accepts(env, state, s)
    ensures KeysOnce(Accept(env, state, s, Evaluate(env, state, s.proposal).value).0)
  {
    var accepted := Evaluate(env, state, s.proposal).value;
    var (after, receipt) := Accept(env, state, s, accepted);
    OneMoreKey(state, after, accepted.entry, receipt);
  }

  lemma ReceiptsKeepKeysOnce(state: State, after: State)
    requires KeysOnce(state) && after.ledger == state.ledger && state.receipts <= after.receipts
    ensures KeysOnce(after)
  {
    forall i | 0 <= i < |after.ledger|
      ensures Receipted(after.receipts, after.ledger[i].proposal.idempotencyKey)
    {
      ReceiptedStays(state.receipts, after.receipts, state.ledger[i].proposal.idempotencyKey);
    }
  }

  lemma CommitKeepsKeysOnce(env: Env, state: State, s: Submission)
    requires KeysOnce(state)
    ensures KeysOnce(Commit(env, state, s).0)
  {
    if Accepts(env, state, s) {
      AcceptKeepsKeysOnce(env, state, s);
    } else {
      ReceiptsKeepKeysOnce(state, Commit(env, state, s).0);
    }
  }

  /** In every run, at most one ledger entry exists per idempotency key. */
  lemma OneEntryPerKey(env: Env, inputs: seq<Submission>)
    ensures KeysOnce(Run(env, EMPTY_STATE, inputs))
  {
    var holds := (ins: seq<Submission>) => KeysOnce(Run(env, EMPTY_STATE, ins));
    forall i | 0 <= i < |inputs| && holds(inputs[..i])
      ensures holds(inputs[..i + 1])
    {
      RunOneMore(env, EMPTY_STATE, inputs, i);
      CommitKeepsKeysOnce(env, Run(env, EMPTY_STATE, inputs[..i]), inputs[i]);
    }
    PrefixesKeep(inputs, holds, |inputs|);
    assert inputs[..|inputs|] == inputs;
  }
}
