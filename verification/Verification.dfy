/** What `verify_ledger` re-derives, as functions from any state to the faults it reports. */
module Verification {
  import opened Wrappers
  import opened Domain
  import opened Preconditions
  import opened Ledger
  import opened Invariant
  import R = Replay

  datatype Fault =
    | SequenceGap(at: nat) | PreviousHashMismatch(at: nat) | ProposalHashMismatch(at: nat)
        | ProposalSchemaInvalid(at: nat)
    | RegistryMismatch(at: nat) | UnsupportedLedgerSchema(at: nat) | EventSchemaInvalid(at: nat)
        | LedgerDocumentMismatch(at: nat)
    | EntryHashMismatch(at: nat) | ReceiptDocumentMismatch(ordinal: nat) | ReceiptCoverageMismatch(at: nat, count: nat)
    | MaterializedRootMismatch | ReplayRootMismatch
    | ReplayPreRootMismatch(at: nat) | ReplayRejected(at: nat) | ReplayEscaped(at: nat)
        | ReplayPostRootMismatch(at: nat)

  // ---------------------------------------------------------------- ledger rows

  function When(condition: bool, fault: Fault): (faults: seq<Fault>)
    ensures faults == [] <==> !condition
  {
    if condition then [fault] else []
  }

  function ExpectedDocument(row: Entry): EntryDocument {
    EntryDocument(row.seq_, row.prevHash, row.entryHash, row.preRoot, row.postRoot, row.proposal.proposalId,
      row.proposalHash, row.proposal.versions, row.events, row.committedAt)
  }

  function EnvelopeOf(row: Entry): Envelope {
    Envelope(row.seq_, row.prevHash, row.proposalHash, row.preRoot, row.postRoot, row.proposal.versions, row.events,
        row.committedAt)
  }

  function ContentFaults(env: Env, row: Entry): seq<Fault> {
    if row.proposal.versions.schema != SCHEMA then [UnsupportedLedgerSchema(row.seq_)]
    else
      When(row.proposal.versions.registryHash != Some(RegistryHash(env.registry)), RegistryMismatch(row.seq_))
      + When(row.events == [] || exists e ::
          e in row.events && !env.contract.eventValid(e), EventSchemaInvalid(row.seq_))
      + When(!env.contract.entryValid(row.document)
          || row.document != ExpectedDocument(row), LedgerDocumentMismatch(row.seq_))
      + When(EntryHash(EnvelopeOf(row)) != row.entryHash, EntryHashMismatch(row.seq_))
  }

  function RowFaults(env: Env, row: Entry, expectedSeq: nat, expectedPrev: Option<EntryHash>): seq<Fault> {
    When(row.seq_ != expectedSeq, SequenceGap(row.seq_))
    + When(row.prevHash != expectedPrev, PreviousHashMismatch(row.seq_))
    + When(OfProposal(row.proposal) != row.proposalHash, ProposalHashMismatch(row.seq_))
    + When(!env.contract.proposalValid(row.proposal), ProposalSchemaInvalid(row.seq_))
    + ContentFaults(env, row)
  }

  function LedgerFaults(env: Env, rows: seq<Entry>): seq<Fault>
    decreases |rows|
  {
    if rows == [] then []
    else LedgerFaults(env, rows[..|rows| - 1]) + RowFaults(env, rows[|rows| - 1], |rows|, Head(rows[..|rows| - 1]))
  }

  // ------------------------------------------------------------------- receipts

  function EntryAt(ledger: seq<Entry>, at: nat): Option<Entry>
    decreases |ledger|
  {
    if ledger == [] then None
    else if ledger[|ledger| - 1].seq_ == at then Some(ledger[|ledger| - 1])
    else EntryAt(ledger[..|ledger| - 1], at)
  }

  /** The state root a head stands for; no head stands for the root before the first entry. */
  function RootAt(state: State, ledger: seq<Entry>, head: Option<EntryHash>): Option<StateRoot>
    decreases |ledger|
  {
    if head.None? then Some(if state.ledger == [] then StateRoot(state.tables) else state.ledger[0].preRoot)
    else if ledger == [] then None
    else if ledger[|ledger| - 1].entryHash == head.value then Some(ledger[|ledger| - 1].postRoot)
    else RootAt(state, ledger[..|ledger| - 1], head)
  }

  predicate AcceptedOutcome(outcome: Outcome) {
    outcome == Committed || outcome == FactConflict
  }

  /** The receipt definition of the shipped schema. */
  predicate ReceiptSchemaValid(contract: Contract, d: ReceiptDocument) {
    && (d.proposalId.Some? ==> contract.recordId(d.proposalId.value))
    && (d.key.Some? ==> contract.keyValid(d.key.value))
    && (d.proposer.Some? ==> contract.actorValid(d.proposer.value))
    && (forall i, j :: 0 <= i < j < |d.reasons| ==> d.reasons[i] != d.reasons[j])
    && (AcceptedOutcome(d.outcome) <==> d.entrySeq.Some?)
    && (AcceptedOutcome(d.outcome) ==> d.proposalId.Some? && d.key.Some?)
    && (d.outcome == FactConflict ==> d.conflictIds != {})
  }

  /** The document repeats the normalized columns. */
  predicate DocumentRepeatsRow(contract: Contract, r: Receipt) {
    && r.document.ordinal == r.ordinal && r.document.proposalHash == r.proposalHash
    && r.document.proposalId == (if contract.recordId(r.proposalId) then Some(r.proposalId) else None)
    && r.document.key == (if contract.keyValid(r.key) then Some(r.key) else None)
    && r.document.outcome == r.outcome && r.document.reasons == r.reasons && r.document.conflictIds == r.conflictIds
    && r.document.proposer == r.proposer
  }

  predicate RejectedReceiptOk(env: Env, state: State, r: Receipt, head: Option<EntryHash>) {
    && RootAt(state, state.ledger, head) == Some(r.stateRoot)
    && DocumentRepeatsRow(env.contract, r)
    && r.document.headBefore == head && r.document.headAfter == head && r.document.entrySeq.None?
    && ReceiptSchemaValid(env.contract, r.document)
  }

  predicate AcceptedReceiptOk(env: Env, r: Receipt, e: Entry, head: Option<EntryHash>) {
    var outcome := if OpenedIn(e.events) == {} then Committed else FactConflict;
    && e.prevHash == head
    && r.proposalId == e.proposal.proposalId && r.proposalHash == e.proposalHash && r.key == e.proposal.idempotencyKey
    && r.outcome == outcome && r.reasons == [] && r.conflictIds == OpenedIn(e.events) && r.stateRoot == e.postRoot
    && r.proposer == Representable(env.contract, Some(e.proposal.proposer))
    && DocumentRepeatsRow(env.contract, r)
    && r.document.proposalId == Some(e.proposal.proposalId) && r.document.key == Some(e.proposal.idempotencyKey)
    && r.document.headBefore == e.prevHash && r.document.headAfter == Some(e.entryHash)
    && r.document.entrySeq == Some(e.document.seq_) && r.document.decidedAt == e.committedAt
    && ReceiptSchemaValid(env.contract, r.document)
  }

  function LinkedEntry(state: State, r: Receipt): Option<Entry> {
    if r.ledgerSeq.Some? then EntryAt(state.ledger, r.ledgerSeq.value) else None
  }

  predicate ReceiptOk(env: Env, state: State, r: Receipt, head: Option<EntryHash>) {
    if r.ledgerSeq.None? then RejectedReceiptOk(env, state, r, head)
    else LinkedEntry(state, r).Some? && AcceptedReceiptOk(env, r, LinkedEntry(state, r).value, head)
  }

  /** The head after the receipts read so far. */
  function HeadAfter(state: State, receipts: seq<Receipt>): Option<EntryHash>
    decreases |receipts|
  {
    if receipts == [] then None
    else
      var linked := LinkedEntry(state, receipts[|receipts| - 1]);
      if linked.Some? then Some(linked.value.entryHash) else HeadAfter(state, receipts[..|receipts| - 1])
  }

  function ReceiptFaults(env: Env, state: State, receipts: seq<Receipt>): seq<Fault>
    decreases |receipts|
  {
    if receipts == [] then []
    else
      var r := receipts[|receipts| - 1];
      ReceiptFaults(env, state, receipts[..|receipts| - 1])
      + When(!ReceiptOk(env, state, r, HeadAfter(state, receipts[..|receipts| - 1])),
          ReceiptDocumentMismatch(r.ordinal))
  }

  function AcceptedReceiptsFor(receipts: seq<Receipt>, at: nat): nat
    decreases |receipts|
  {
    if receipts == [] then 0
    else
      var r := receipts[|receipts| - 1];
      AcceptedReceiptsFor(receipts[..|receipts| - 1], at) + if r.ledgerSeq == Some(at) && AcceptedOutcome(r.outcome)
          then 1 else 0
  }

  function CoverageFaults(receipts: seq<Receipt>, rows: seq<Entry>): seq<Fault>
    decreases |rows|
  {
    if rows == [] then []
    else
      var at := rows[|rows| - 1].seq_;
      CoverageFaults(receipts, rows[..|rows| - 1])
      + When(AcceptedReceiptsFor(receipts, at) != 1, ReceiptCoverageMismatch(at, AcceptedReceiptsFor(receipts, at)))
  }

  // --------------------------------------------------------------------- replay

  /** A failure the verifier does not report: the database refuses a second row under the same
      identifier, and evidence for a claim that is not active is a conflict rather than an error. Both
      leave the verifier as exceptions. */
  predicate Escapes(e: Event, failure: Failure) {
    || (e.EvidenceAttached? && failure.Stale?)
    || ((e.EvidenceAttached? || e.ClaimAsserted?) && failure.code == DuplicateObjectId)
  }

  /** How replaying events between two states fails, at the first that does. */
  ghost function EventsFault(registry: Registry, t: Tables, events: seq<Event>, at: nat): Fault
    requires R.Replay(registry, t, events).Err?
    decreases |events|
  {
    var n := |events| - 1;
    match R.Replay(registry, t, events[..n])
    case Err(_) => EventsFault(registry, t, events[..n], at)
    case Ok(before) =>
        if Escapes(events[n], R.ApplyEvent(registry, before, events[n]).error) then ReplayEscaped(at)
        else ReplayRejected(at)
  }

  /** Replaying one entry between its recorded roots, after the given head. */
  ghost function ReplayEntry(env: Env, before: Tables, row: Entry,
      expectedPrev: Option<EntryHash>): Result<Tables, Fault> {
    if StateRoot(before) != row.preRoot then Err(ReplayPreRootMismatch(row.seq_))
    else if ReferencesError(env.registry, before, row.proposal.operations).Some? then Err(ReplayRejected(row.seq_))
    else
      match R.Replay(env.registry, before, row.events)
      case Err(_) => Err(EventsFault(env.registry, before, row.events, row.seq_))
      case Ok(after) =>
        if StateRoot(after) != row.postRoot then Err(ReplayPostRootMismatch(row.seq_))
        else if row.prevHash != expectedPrev then Err(PreviousHashMismatch(row.seq_))
        else Ok(after)
  }

  /** Replaying whole entries, up to the first fault. */
  ghost function ReplayLedger(env: Env, rows: seq<Entry>): Result<Tables, Fault>
    decreases |rows|
  {
    if rows == [] then Ok(EMPTY_TABLES)
    else
      match ReplayLedger(env, rows[..|rows| - 1])
      case Err(fault) => Err(fault)
      case Ok(before) => ReplayEntry(env, before, rows[|rows| - 1], Head(rows[..|rows| - 1]))
  }

  /** The faults of any state, reachable or tampered with. */
  ghost function Faults(env: Env, state: State): seq<Fault> {
    var recorded := LedgerFaults(env, state.ledger) + ReceiptFaults(env, state,
        state.receipts) + CoverageFaults(state.receipts, state.ledger)
      + When(state.ledger != []
          && state.ledger[|state.ledger| - 1].postRoot != StateRoot(state.tables), MaterializedRootMismatch);
    if recorded != [] || state.ledger == [] then recorded
    else
      match ReplayLedger(env, state.ledger)
      case Err(fault) => [fault]
      case Ok(tables) => When(StateRoot(tables) != StateRoot(state.tables), ReplayRootMismatch)
  }
}

/** The verifier accepts every reachable state, and only states the ledger accounts for. */
module VerifiedStates {
  import opened Wrappers
  import opened Domain
  import opened Rules
  import opened Preconditions
  import opened Ledger
  import opened Invariant
  import opened Sequences
  import opened Verification
  import R = Replay

  lemma LastRowFaults(env: Env, rows: seq<Entry>)
    requires rows != []
    ensures
      var n := |rows| - 1;
      LedgerFaults(env, rows) == [] <==>
        LedgerFaults(env, rows[..n]) == [] && RowFaults(env, rows[n], |rows|, Head(rows[..n])) == []
  {}

  /** What a fault-free row satisfies, column by column. */
  ghost predicate RowOk(env: Env, row: Entry, expectedSeq: nat, expectedPrev: Option<EntryHash>) {
    && row.seq_ == expectedSeq && row.prevHash == expectedPrev
    && row.proposalHash == OfProposal(row.proposal) && env.contract.proposalValid(row.proposal)
    && row.proposal.versions.schema == SCHEMA && row.proposal.versions.registryHash == Some(RegistryHash(env.registry))
    && row.events != [] && (forall e :: e in row.events ==> env.contract.eventValid(e))
    && env.contract.entryValid(row.document) && row.document == ExpectedDocument(row)
    && row.entryHash == EntryHash(EnvelopeOf(row))
  }

  ghost predicate Chained(env: Env, rows: seq<Entry>)
    decreases |rows|
  {
    rows == [] || (Chained(env, rows[..|rows| - 1]) && RowOk(env, rows[|rows| - 1], |rows|, Head(rows[..|rows| - 1])))
  }

  lemma NoContentFault(env: Env, row: Entry, expectedSeq: nat, expectedPrev: Option<EntryHash>)
    ensures RowFaults(env, row, expectedSeq, expectedPrev) == [] <==> RowOk(env, row, expectedSeq, expectedPrev)
  {
    assert ContentFaults(env, row) == [] <==>
      && row.proposal.versions.schema == SCHEMA
          && row.proposal.versions.registryHash == Some(RegistryHash(env.registry))
      && row.events != [] && (forall e :: e in row.events ==> env.contract.eventValid(e))
      && env.contract.entryValid(row.document) && row.document == ExpectedDocument(row)
      && row.entryHash == EntryHash(EnvelopeOf(row));
  }

  /** The row loop reports nothing exactly for chained ledgers. */
  lemma {:induction false} NoFaultIffChained(env: Env, rows: seq<Entry>)
    ensures LedgerFaults(env, rows) == [] <==> Chained(env, rows)
    decreases |rows|
  {
    if rows != [] {
      var n := |rows| - 1;
      LastRowFaults(env, rows);
      NoContentFault(env, rows[n], |rows|, Head(rows[..n]));
      NoFaultIffChained(env, rows[..n]);
    }
  }

  lemma SoundRowOk(env: Env, ledger: seq<Entry>, i: nat)
    requires Coherent(env.contract) && LedgerSound(env, ledger) && i < |ledger|
    ensures RowOk(env, ledger[i], i + 1, Head(ledger[..i]))
  {
    assert EntrySoundAt(env, ledger, i);
    assert ledger[i].document.events == ledger[i].events;
  }

  lemma {:induction false} SoundLedgerChained(env: Env, ledger: seq<Entry>, n: nat)
    requires Coherent(env.contract) && LedgerSound(env, ledger) && n <= |ledger|
    ensures Chained(env, ledger[..n])
    decreases n
  {
    if n > 0 {
      SoundLedgerChained(env, ledger, n - 1);
      assert ledger[..n][..n - 1] == ledger[..n - 1];
      SoundRowOk(env, ledger, n - 1);
    }
  }

  lemma HashSeq(env: Env, ledger: seq<Entry>, i: nat)
    requires LedgerSound(env, ledger) && i < |ledger|
    ensures ledger[i].seq_ == i + 1 && ledger[i].entryHash.envelope.seq_ == i + 1
  {
    assert EntrySoundAt(env, ledger, i);
  }

  lemma {:induction false} SoundLedgerReplays(env: Env, ledger: seq<Entry>)
    requires LedgerSound(env, ledger)
    ensures ReplayLedger(env, ledger) == Ok(TablesAfter(ledger))
    decreases |ledger|
  {
    if ledger != [] {
      var n := |ledger| - 1;
      PrefixSound(env, ledger, n);
      SoundLedgerReplays(env, ledger[..n]);
      assert EntrySoundAt(env, ledger, n);
    }
  }

  lemma {:induction false} EntryAtIndex(env: Env, ledger: seq<Entry>, k: nat, n: nat)
    requires LedgerSound(env, ledger) && k < n <= |ledger|
    ensures EntryAt(ledger[..n], k + 1) == Some(ledger[k])
    decreases n
  {
    HashSeq(env, ledger, n - 1);
    if k < n - 1 {
      EntryAtIndex(env, ledger, k, n - 1);
      assert ledger[..n][..n - 1] == ledger[..n - 1];
    }
  }

  lemma {:induction false} RootAtIndex(env: Env, state: State, ledger: seq<Entry>, k: nat, n: nat)
    requires LedgerSound(env, ledger) && 1 <= k <= n <= |ledger|
    ensures RootAt(state, ledger[..n], Head(ledger[..k])) == Some(StateRoot(TablesAfter(ledger[..k])))
    decreases n
  {
    HashSeq(env, ledger, n - 1);
    HashSeq(env, ledger, k - 1);
    if k < n {
      RootAtIndex(env, state, ledger, k, n - 1);
      assert ledger[..n][..n - 1] == ledger[..n - 1];
    }
  }

  lemma RootBeforeFirst(env: Env, state: State)
    requires Good(env, state)
    ensures RootAt(state, state.ledger, None) == Some(StateRoot(EMPTY_TABLES))
  {
    if state.ledger != [] {
      assert EntrySoundAt(env, state.ledger, 0);
    }
  }

  /** An accepted receipt was written for the entry its position calls for. */
  lemma LinkedAt(env: Env, state: State, i: nat)
    requires Good(env, state) && i < |state.receipts| && state.receipts[i].ledgerSeq.Some?
    ensures
      var n := AcceptedCount(state.receipts[..i]);
      && n < |state.ledger| && state.ledger[n].seq_ == n + 1
      && state.receipts[i] == AcceptedReceipt(env.contract, i + 1, state.ledger[n])
      && LinkedEntry(state, state.receipts[i]) == Some(state.ledger[n])
  {
    var n := AcceptedCount(state.receipts[..i]);
    assert ReceiptSoundAt(env, state.ledger, state.receipts, i);
    assert EntrySoundAt(env, state.ledger, n);
    EntryAtIndex(env, state.ledger, n, |state.ledger|);
    assert state.ledger[..|state.ledger|] == state.ledger;
  }

  lemma {:induction false} HeadAfterReceipts(env: Env, state: State, i: nat)
    requires Good(env, state) && i <= |state.receipts|
    ensures AcceptedCount(state.receipts[..i]) <= |state.ledger|
    ensures HeadAfter(state, state.receipts[..i]) == Head(state.ledger[..AcceptedCount(state.receipts[..i])])
    decreases i
  {
    CountMonotone(state.receipts, i);
    if i > 0 {
      HeadAfterReceipts(env, state, i - 1);
      assert state.receipts[..i][..i - 1] == state.receipts[..i - 1];
      if state.receipts[i - 1].ledgerSeq.Some? {
        LinkedAt(env, state, i - 1);
      }
    }
  }

  lemma AcceptedReceiptVerifies(env: Env, earlier: seq<Entry>, e: Entry, ordinal: nat)
    requires Coherent(env.contract) && EntrySound(env, earlier, e)
    ensures AcceptedReceiptOk(env, AcceptedReceipt(env.contract, ordinal, e), e, Head(earlier))
  {}

  lemma RejectedReceiptVerifies(env: Env, state: State, ordinal: nat, head: Option<EntryHash>, root: StateRoot,
      r: Receipt)
    requires Rejected(env.contract, ordinal, head, root, r) && RootAt(state, state.ledger, head) == Some(root)
    ensures RejectedReceiptOk(env, state, r, head)
  {}

  lemma AcceptedVerifiesAt(env: Env, state: State, i: nat)
    requires Coherent(env.contract) && Good(env, state) && i < |state.receipts| && state.receipts[i].ledgerSeq.Some?
    ensures
      var n := AcceptedCount(state.receipts[..i]);
      && n < |state.ledger| && LinkedEntry(state, state.receipts[i]) == Some(state.ledger[n])
      && AcceptedReceiptOk(env, state.receipts[i], state.ledger[n], Head(state.ledger[..n]))
  {
    var n := AcceptedCount(state.receipts[..i]);
    LinkedAt(env, state, i);
    EntryReceiptVerifies(env, state.ledger, n, i + 1);
  }

  lemma EntryReceiptVerifies(env: Env, ledger: seq<Entry>, n: nat, ordinal: nat)
    requires Coherent(env.contract) && LedgerSound(env, ledger) && n < |ledger|
    ensures AcceptedReceiptOk(env, AcceptedReceipt(env.contract, ordinal, ledger[n]), ledger[n], Head(ledger[..n]))
  {
    assert EntrySoundAt(env, ledger, n);
    AcceptedReceiptVerifies(env, ledger[..n], ledger[n], ordinal);
  }

  lemma RejectedVerifiesAt(env: Env, state: State, i: nat)
    requires Good(env, state) && i < |state.receipts| && state.receipts[i].ledgerSeq.None?
    ensures
      var n := AcceptedCount(state.receipts[..i]);
      n <= |state.ledger| && RejectedReceiptOk(env, state, state.receipts[i], Head(state.ledger[..n]))
  {
    var n := AcceptedCount(state.receipts[..i]);
    assert ReceiptSoundAt(env, state.ledger, state.receipts, i);
    if n == 0 {
      RootBeforeFirst(env, state);
    } else {
      RootAtIndex(env, state, state.ledger, n, |state.ledger|);
      assert state.ledger[..|state.ledger|] == state.ledger;
    }
    RejectedReceiptVerifies(env, state, i + 1, Head(state.ledger[..n]), StateRoot(TablesAfter(state.ledger[..n])),
        state.receipts[i]);
  }

  lemma ReceiptVerifies(env: Env, state: State, i: nat)
    requires Coherent(env.contract) && Good(env, state) && i < |state.receipts|
    ensures ReceiptOk(env, state, state.receipts[i], HeadAfter(state, state.receipts[..i]))
  {
    HeadAfterReceipts(env, state, i);
    if state.receipts[i].ledgerSeq.Some? {
      AcceptedVerifiesAt(env, state, i);
    } else {
      RejectedVerifiesAt(env, state, i);
    }
  }

  lemma OneMoreVerifies(env: Env, state: State, i: nat)
    requires Coherent(env.contract) && Good(env, state) && i < |state.receipts|
    requires ReceiptFaults(env, state, state.receipts[..i]) == []
    ensures ReceiptFaults(env, state, state.receipts[..i + 1]) == []
  {
    assert state.receipts[..i + 1][..i] == state.receipts[..i];
    ReceiptVerifies(env, state, i);
  }

  lemma ReceiptsVerify(env: Env, state: State)
    requires Coherent(env.contract) && Good(env, state)
    ensures ReceiptFaults(env, state, state.receipts) == []
  {
    var holds := (receipts: seq<Receipt>) => ReceiptFaults(env, state, receipts) == [];
    forall i | 0 <= i < |state.receipts| && holds(state.receipts[..i])
      ensures holds(state.receipts[..i + 1])
    {
      OneMoreVerifies(env, state, i);
    }
    PrefixesKeep(state.receipts, holds, |state.receipts|);
    assert state.receipts[..|state.receipts|] == state.receipts;
  }

  lemma {:induction false} CoverageOf(env: Env, state: State, i: nat, at: nat)
    requires Good(env, state) && i <= |state.receipts|
    ensures AcceptedReceiptsFor(state.receipts[..i], at) == if 1 <= at <= AcceptedCount(state.receipts[..i]) then 1
        else 0
    decreases i
  {
    if i > 0 {
      CoverageOf(env, state, i - 1, at);
      assert state.receipts[..i][..i - 1] == state.receipts[..i - 1];
      if state.receipts[i - 1].ledgerSeq.Some? {
        LinkedAt(env, state, i - 1);
      }
    }
  }

  lemma {:induction false} AllCovered(receipts: seq<Receipt>, rows: seq<Entry>)
    requires forall i :: 0 <= i < |rows| ==> AcceptedReceiptsFor(receipts, rows[i].seq_) == 1
    ensures CoverageFaults(receipts, rows) == []
    decreases |rows|
  {
    if rows != [] {
      AllCovered(receipts, rows[..|rows| - 1]);
    }
  }

  lemma EntryCovered(env: Env, state: State, k: nat)
    requires Good(env, state) && k < |state.ledger|
    ensures AcceptedReceiptsFor(state.receipts, state.ledger[k].seq_) == 1
  {
    assert EntrySoundAt(env, state.ledger, k);
    CoverageOf(env, state, |state.receipts|, k + 1);
    assert state.receipts[..|state.receipts|] == state.receipts;
  }

  lemma EveryEntryCovered(env: Env, state: State)
    requires Good(env, state)
    ensures CoverageFaults(state.receipts, state.ledger) == []
  {
    forall k | 0 <= k < |state.ledger|
      ensures AcceptedReceiptsFor(state.receipts, state.ledger[k].seq_) == 1
    {
      EntryCovered(env, state, k);
    }
    AllCovered(state.receipts, state.ledger);
  }

  lemma NothingRecorded(env: Env, state: State)
    requires LedgerFaults(env, state.ledger) == [] && ReceiptFaults(env, state, state.receipts) == []
    requires CoverageFaults(state.receipts, state.ledger) == []
    requires state.ledger != [] ==> state.ledger[|state.ledger| - 1].postRoot == StateRoot(state.tables)
    requires ReplayLedger(env, state.ledger) == Ok(state.tables)
    ensures Faults(env, state) == []
  {
  }

  lemma NoLedgerFault(env: Env, state: State)
    requires Coherent(env.contract) && Good(env, state)
    ensures LedgerFaults(env, state.ledger) == []
  {
    SoundLedgerChained(env, state.ledger, |state.ledger|);
    assert state.ledger[..|state.ledger|] == state.ledger;
    NoFaultIffChained(env, state.ledger);
  }

  lemma LedgerGivesTables(env: Env, state: State)
    requires Good(env, state)
    ensures state.ledger != [] ==> state.ledger[|state.ledger| - 1].postRoot == StateRoot(state.tables)
    ensures ReplayLedger(env, state.ledger) == Ok(state.tables)
  {
    SoundLedgerReplays(env, state.ledger);
  }

  lemma GoodVerifies(env: Env, state: State)
    requires Coherent(env.contract) && Good(env, state)
    ensures Faults(env, state) == []
  {
    NoLedgerFault(env, state);
    ReceiptsVerify(env, state);
    EveryEntryCovered(env, state);
    LedgerGivesTables(env, state);
    NothingRecorded(env, state);
  }

  /** After any mix of accepted and rejected commits the verifier reports nothing. */
  lemma ReachableVerifies(env: Env, inputs: seq<Submission>)
    requires FamiliesNamePredicate(env.registry) && Coherent(env.contract)
    ensures Faults(env, Run(env, EMPTY_STATE, inputs)) == []
  {
    ReachableIsGood(env, inputs);
    GoodVerifies(env, Run(env, EMPTY_STATE, inputs));
  }

  // -------------------------------------------------------- what verification means

  lemma SameHashSameRow(env: Env, a: Entry, b: Entry, seqA: nat, seqB: nat, prevA: Option<EntryHash>,
      prevB: Option<EntryHash>)
    requires RowOk(env, a, seqA, prevA) && RowOk(env, b, seqB, prevB) && a.entryHash == b.entryHash
    ensures a == b && seqA == seqB && prevA == prevB
  {}

  lemma {:induction false} HeadDeterminesChain(env: Env, a: seq<Entry>, b: seq<Entry>)
    requires Chained(env, a) && Chained(env, b) && Head(a) == Head(b)
    ensures a == b
    decreases |a|
  {
    if a != [] {
      var m, n := |a| - 1, |b| - 1;
      SameHashSameRow(env, a[m], b[n], |a|, |b|, Head(a[..m]), Head(b[..n]));
      HeadDeterminesChain(env, a[..m], b[..n]);
      SplitLast(a);
      SplitLast(b);
    }
  }

  lemma SplitLast(rows: seq<Entry>)
    requires rows != []
    ensures rows == rows[..|rows| - 1] + [rows[|rows| - 1]]
  {}

  /** Tamper evidence: the head hash of a fault-free ledger determines every column of every
      row before it. */
  lemma HeadDeterminesLedger(env: Env, a: seq<Entry>, b: seq<Entry>)
    requires LedgerFaults(env, a) == [] && LedgerFaults(env, b) == [] && Head(a) == Head(b)
    ensures a == b
  {
    NoFaultIffChained(env, a);
    NoFaultIffChained(env, b);
    HeadDeterminesChain(env, a, b);
  }

  lemma {:induction false} ReplayedLedgerIsHistory(env: Env, rows: seq<Entry>)
    requires ReplayLedger(env, rows).Ok?
    ensures R.Replay(env.registry, EMPTY_TABLES, History(rows)) == Ok(ReplayLedger(env, rows).value)
    decreases |rows|
  {
    if rows != [] {
      var n := |rows| - 1;
      ReplayedLedgerIsHistory(env, rows[..n]);
      R.ReplayAppend(env.registry, EMPTY_TABLES, History(rows[..n]), rows[n].events);
    }
  }

  /** A state that verifies, however it came about, holds the tables its recorded events rebuild,
      except that with an empty ledger nothing compares the tables with anything. */
  lemma VerifiedTablesAreReplayed(env: Env, state: State)
    requires Faults(env, state) == []
    ensures R.Replay(env.registry, EMPTY_TABLES, History(state.ledger)) == Ok(state.tables)
       <==> state.ledger != [] || state.tables == EMPTY_TABLES
  {
    if state.ledger != [] {
      ReplayedLedgerIsHistory(env, state.ledger);
    }
  }

  /** Tables no commit produced, without a ledger to say so. */
  const STRAY_SOURCE: Source := Source(Name("stray"), ContentHash([]), None, "")
  const STRAY_STATE: State :=
    State(EMPTY_TABLES.(sources := map[Name("stray") := SourceRow(ContentHash([]), STRAY_SOURCE, [])]), [], [])

  /** A concrete state whose tables nothing recorded, and which the verifier accepts. */
  lemma UnrecordedTablesVerify(env: Env)
    ensures Faults(env, STRAY_STATE) == []
    ensures R.Replay(env.registry, EMPTY_TABLES, History(STRAY_STATE.ledger)) != Ok(STRAY_STATE.tables)
  {
    assert Name("stray") in STRAY_STATE.tables.sources;
  }
}
