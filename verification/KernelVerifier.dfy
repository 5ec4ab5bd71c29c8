/** The verifier's loops over ledger rows and receipts, and replay into a fresh kernel. */
module KernelVerifier {
  import opened Wrappers
  import opened Domain
  import opened Ledger
  import opened Verification
  import opened KernelStore
  import VerifiedStates
  import R = Replay

  method VerifyLedgerRows(env: Env, rows: seq<Entry>) returns (faults: seq<Fault>)
    ensures faults == LedgerFaults(env, rows)
  {
    faults := [];
    var expectedPrev: Option<EntryHash> := None;
    for i := 0 to |rows|
      invariant faults == LedgerFaults(env, rows[..i])
      invariant expectedPrev == Head(rows[..i])
    {
      assert rows[..i + 1][..i] == rows[..i];
      faults := faults + RowFaults(env, rows[i], i + 1, expectedPrev);
      expectedPrev := Some(rows[i].entryHash);
    }
    assert rows[..|rows|] == rows;
  }

  method VerifyReceiptDocuments(env: Env, state: State) returns (faults: seq<Fault>)
    ensures faults == ReceiptFaults(env, state, state.receipts)
  {
    faults := [];
    var expectedHead: Option<EntryHash> := None;
    var rows := state.receipts;
    for i := 0 to |rows|
      invariant faults == ReceiptFaults(env, state, rows[..i])
      invariant expectedHead == HeadAfter(state, rows[..i])
    {
      assert rows[..i + 1][..i] == rows[..i];
      if !ReceiptOk(env, state, rows[i], expectedHead) {
        faults := faults + [ReceiptDocumentMismatch(rows[i].ordinal)];
      }
      var linked := LinkedEntry(state, rows[i]);
      if linked.Some? {
        expectedHead := Some(linked.value.entryHash);
      }
    }
    assert rows[..|rows|] == rows;
  }

  method CountAcceptedReceipts(receipts: seq<Receipt>) returns (counts: map<nat, nat>)
    ensures forall at :: (if at in counts then counts[at] else 0) == AcceptedReceiptsFor(receipts, at)
  {
    counts := map[];
    for i := 0 to |receipts|
      invariant forall at :: (if at in counts then counts[at] else 0) == AcceptedReceiptsFor(receipts[..i], at)
    {
      assert receipts[..i + 1][..i] == receipts[..i];
      var r := receipts[i];
      if r.ledgerSeq.Some? && AcceptedOutcome(r.outcome) {
        var at := r.ledgerSeq.value;
        counts := counts[at := (if at in counts then counts[at] else 0) + 1];
      }
    }
    assert receipts[..|receipts|] == receipts;
  }

  method VerifyAcceptedReceiptCoverage(receipts: seq<Receipt>, rows: seq<Entry>) returns (faults: seq<Fault>)
    ensures faults == CoverageFaults(receipts, rows)
  {
    var counts := CountAcceptedReceipts(receipts);
    faults := [];
    for i := 0 to |rows|
      invariant faults == CoverageFaults(receipts, rows[..i])
    {
      assert rows[..i + 1][..i] == rows[..i];
      var at := rows[i].seq_;
      var count := if at in counts then counts[at] else 0;
      if count != 1 {
        faults := faults + [ReceiptCoverageMismatch(at, count)];
      }
    }
    assert rows[..|rows|] == rows;
  }

  /** Replay one recorded entry into the target and append its row. */
  method ReplayEntry(target: Kernel, row: Entry, expectedPrev: Option<EntryHash>) returns (fault: Option<Fault>)
    modifies target
    ensures target.receipts == old(target.receipts)
    ensures match Verification.ReplayEntry(target.env, old(target.Db()), row, expectedPrev)
            case Err(found) => fault == Some(found)
            case Ok(after) => fault.None? && target.Db() == after && target.ledger == old(target.ledger) + [row]
  {
    if StateRoot(target.Db()) != row.preRoot {
      return Some(ReplayPreRootMismatch(row.seq_));
    }
    var dangling := target.ValidateContinuityReferences(row.proposal.operations);
    if dangling.Some? {
      return Some(ReplayRejected(row.seq_));
    }
    fault := ReplayEvents(target, row.events, row.seq_);
    if fault.Some? {
      return;
    }
    if StateRoot(target.Db()) != row.postRoot {
      return Some(ReplayPostRootMismatch(row.seq_));
    }
    if row.prevHash != expectedPrev {
      return Some(PreviousHashMismatch(row.seq_));
    }
    target.ledger := target.ledger + [row];
  }

  method ReplayEvents(target: Kernel, events: seq<Event>, at: nat) returns (fault: Option<Fault>)
    modifies target
    ensures target.ledger == old(target.ledger) && target.receipts == old(target.receipts)
    ensures match R.Replay(target.env.registry, old(target.Db()), events)
            case Err(_) => fault == Some(EventsFault(target.env.registry, old(target.Db()), events, at))
            case Ok(after) => fault.None? && target.Db() == after
  {
    ghost var before := target.Db();
    for i := 0 to |events|
      invariant R.Replay(target.env.registry, before, events[..i]) == Ok(target.Db())
      invariant target.ledger == old(target.ledger) && target.receipts == old(target.receipts)
    {
      assert events[..i + 1][..i] == events[..i];
      var failure := target.ApplyReplayEvent(events[i]);
      if failure.Some? {
        FirstFaultStays(target.env.registry, before, events, at, i + 1);
        return Some(if Escapes(events[i], failure.value) then ReplayEscaped(at) else ReplayRejected(at));
      }
    }
    assert events[..|events|] == events;
    return None;
  }

  lemma {:induction false} FirstFaultStays(registry: Registry, t: Tables, events: seq<Event>, at: nat, n: nat)
    requires n <= |events| && R.Replay(registry, t, events[..n]).Err?
    ensures R.Replay(registry, t, events).Err?
    ensures EventsFault(registry, t, events, at) == EventsFault(registry, t, events[..n], at)
    decreases |events|
  {
    if n < |events| {
      assert events[..|events| - 1][..n] == events[..n];
      FirstFaultStays(registry, t, events[..|events| - 1], at, n);
    } else {
      assert events[..n] == events;
    }
  }

  /** Replay rows and receipts into an empty target: it ends as the state they describe, or with the
      first fault. */
  method ReplayRows(target: Kernel, rows: seq<Entry>, receipts: seq<Receipt>) returns (fault: Option<Fault>)
    requires target.Snapshot() == EMPTY_STATE
    modifies target
    ensures match ReplayLedger(target.env, rows)
            case Err(found) => fault == Some(found)
            case Ok(after) => fault.None? && target.Snapshot() == State(after, rows, receipts)
  {
    var expectedPrev: Option<EntryHash> := None;
    for i := 0 to |rows|
      invariant ReplayLedger(target.env, rows[..i]) == Ok(target.Db())
      invariant target.ledger == rows[..i] && target.receipts == [] && expectedPrev == Head(rows[..i])
    {
      ghost var before := target.Db();
      NextReplayed(target.env, rows, i, before);
      OneRowMore(rows, i);
      fault := ReplayEntry(target, rows[i], expectedPrev);
      if fault.Some? {
        FaultStays(target.env, rows, i + 1);
        return;
      }
      expectedPrev := Some(rows[i].entryHash);
    }
    target.receipts := receipts;
    assert rows[..|rows|] == rows;
    return None;
  }

  lemma OneRowMore(rows: seq<Entry>, i: nat)
    requires i < |rows|
    ensures rows[..i + 1] == rows[..i] + [rows[i]]
    ensures Head(rows[..i + 1]) == Some(rows[i].entryHash)
  {
  }

  lemma LastReplayed(env: Env, rows: seq<Entry>, before: Tables)
    requires rows != [] && ReplayLedger(env, rows[..|rows| - 1]) == Ok(before)
    ensures ReplayLedger(env, rows) == Verification.ReplayEntry(env, before, rows[|rows| - 1], Head(rows[..|rows| - 1]))
  {}

  lemma NextReplayed(env: Env, rows: seq<Entry>, i: nat, before: Tables)
    requires i < |rows| && ReplayLedger(env, rows[..i]) == Ok(before)
    ensures ReplayLedger(env, rows[..i + 1]) == Verification.ReplayEntry(env, before, rows[i], Head(rows[..i]))
  {
    var upTo := rows[..i + 1];
    assert upTo[..|upTo| - 1] == rows[..i];
    LastReplayed(env, upTo, before);
  }

  lemma {:induction false} FaultStays(env: Env, rows: seq<Entry>, n: nat)
    requires n <= |rows| && ReplayLedger(env, rows[..n]).Err?
    ensures ReplayLedger(env, rows) == ReplayLedger(env, rows[..n])
    decreases |rows|
  {
    if n < |rows| {
      assert rows[..|rows| - 1][..n] == rows[..n];
      FaultStays(env, rows[..|rows| - 1], n);
    } else {
      assert rows[..n] == rows;
    }
  }

  /** Replay into a fresh kernel and compare its root with the recorded one. */
  method CompareReplay(env: Env, state: State) returns (faults: seq<Fault>)
    ensures faults ==
      match ReplayLedger(env, state.ledger)
      case Err(fault) => [fault]
      case Ok(tables) => When(StateRoot(tables) != StateRoot(state.tables), ReplayRootMismatch)
  {
    var replayed := new Kernel(env);
    var fault := ReplayRows(replayed, state.ledger, state.receipts);
    if fault.Some? {
      return [fault.value];
    }
    return When(StateRoot(replayed.Db()) != StateRoot(state.tables), ReplayRootMismatch);
  }

  /** The verification of any kernel, whatever its tables, ledger and receipts hold. */
  method VerifyLedger(k: Kernel) returns (faults: seq<Fault>)
    ensures faults == Faults(k.env, k.Snapshot())
    ensures k.Valid() ==> faults == []
  {
    var state := State(k.Db(), k.ledger, k.receipts);
    if k.Valid() {
      VerifiedStates.GoodVerifies(k.env, state);
    }
    faults := VerifyRecorded(k.env, state);
    if faults == [] && state.ledger != [] {
      faults := CompareReplay(k.env, state);
    }
  }

  method VerifyRecorded(env: Env, state: State) returns (faults: seq<Fault>)
    ensures faults == LedgerFaults(env, state.ledger) + ReceiptFaults(env, state,
        state.receipts) + CoverageFaults(state.receipts, state.ledger)
                      + When(state.ledger != []
                          && state.ledger[|state.ledger| - 1].postRoot != StateRoot(state.tables),
                          MaterializedRootMismatch)
  {
    var rowFaults := VerifyLedgerRows(env, state.ledger);
    var receiptFaults := VerifyReceiptDocuments(env, state);
    var coverageFaults := VerifyAcceptedReceiptCoverage(state.receipts, state.ledger);
    faults := rowFaults + receiptFaults + coverageFaults;
    if state.ledger != [] && state.ledger[|state.ledger| - 1].postRoot != StateRoot(state.tables) {
      faults := faults + [MaterializedRootMismatch];
    }
  }
}
