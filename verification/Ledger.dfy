/** One commit as a function on the whole kernel state, and runs of commits.

    A commit is one atomic step: clients interleave whole commits. */
module Ledger {
  import opened Wrappers
  import opened Domain
  import opened Reducers
  import opened Preconditions
  import Prediction

  // --------------------------------------------------------------------- records

  datatype ProposalHash = OfProposal(proposal: Proposal) | OfUnencodable(typeName: string, proposalId: Id, key: string)
  datatype StateRoot = StateRoot(tables: Tables)
  datatype EntryHash = EntryHash(envelope: Envelope)
  datatype Envelope = Envelope(
    seq_: nat, prevHash: Option<EntryHash>, proposalHash: ProposalHash, preRoot: StateRoot, postRoot: StateRoot,
    versions: Versions, events: seq<Event>, committedAt: Time)
  datatype EntryDocument = EntryDocument(
    seq_: nat, prevHash: Option<EntryHash>, entryHash: EntryHash, preRoot: StateRoot, postRoot: StateRoot,
    proposalId: Id, proposalHash: ProposalHash, versions: Versions, events: seq<Event>, committedAt: Time)
  datatype Entry = Entry(
    seq_: nat, prevHash: Option<EntryHash>, entryHash: EntryHash, proposalHash: ProposalHash, proposal: Proposal,
    events: seq<Event>, preRoot: StateRoot, postRoot: StateRoot, committedAt: Time, document: EntryDocument)

  datatype Outcome = Committed | FactConflict | TransactionConflict | ValidationError
  datatype ReceiptDocument = ReceiptDocument(
    ordinal: nat, proposalId: Option<Id>, proposalHash: ProposalHash, key: Option<string>, outcome: Outcome,
    reasons: seq<Code>, headBefore: Option<EntryHash>, headAfter: Option<EntryHash>, entrySeq: Option<nat>,
    conflictIds: set<Id>, decidedAt: Time, proposer: Option<Actor>)
  datatype Receipt = Receipt(
    ordinal: nat, key: string, proposalHash: ProposalHash, proposalId: Id, outcome: Outcome, reasons: seq<Code>,
    ledgerSeq: Option<nat>, stateRoot: StateRoot, conflictIds: set<Id>, proposer: Option<Actor>,
        document: ReceiptDocument)

  datatype State = State(tables: Tables, ledger: seq<Entry>, receipts: seq<Receipt>)

  const EMPTY_STATE := State(EMPTY_TABLES, [], [])

  // ----------------------------------------------------------------- environment

  /** The parts of the JSON-schema contract the kernel consults. */
  datatype Contract = Contract(
    proposalValid: Proposal -> bool, eventValid: Event -> bool, entryValid: EntryDocument -> bool,
    recordId: Id -> bool, keyValid: string -> bool, actorValid: Actor -> bool)

  datatype Env = Env(registry: Registry, contract: Contract)

  /** What the shipped schema says about the definitions above. */
  ghost predicate Coherent(contract: Contract) {
    && (forall p :: contract.proposalValid(p) ==>
          p.operations != [] && contract.recordId(p.proposalId) && contract.keyValid(p.idempotencyKey)
              && contract.actorValid(p.proposer))
    && (forall d :: contract.entryValid(d) ==> d.events != [] && forall e :: e in d.events ==> contract.eventValid(e))
  }

  const SCHEMA := "1.3.0"
  const CONFLICT_RULES := "conflict-rules@1"
  const PROJECTION := "markdown-projection@3"

  function VersionsError(registry: Registry, v: Versions): Option<Code> {
    if v.schema != SCHEMA then Some(UnsupportedSchemaVersion)
    else if v.predicateRegistry != registry.version then Some(UnsupportedPredicateRegistry)
    else if v.registryHash != Some(RegistryHash(registry)) then Some(RegistryContentMismatch)
    else if v.conflictRules != CONFLICT_RULES then Some(UnsupportedConflictRules)
    else if v.guardDsl != registry.guardDsl then Some(UnsupportedGuardDsl)
    else if v.projection != PROJECTION then Some(UnsupportedProjection)
    else None
  }

  // ------------------------------------------------------------------ submissions

  /** What a caller hands to `commit`: a value that cannot be encoded as JSON, or a proposal
      together with the outcome of the two size preflights. */
  datatype Submission =
    | Unencodable(typeName: string, proposalId: Id, key: string, proposer: Option<Actor>, recursion: bool, now: Time)
    | Encoded(proposal: Proposal, tooDeep: bool, tooLarge: bool)

  function HashOf(s: Submission): ProposalHash {
    match s
    case Unencodable(typeName, proposalId, key, _, _, _) => OfUnencodable(typeName, proposalId, key)
    case Encoded(p, _, _) => OfProposal(p)
  }

  function KeyOf(s: Submission): string {
    match s
    case Unencodable(_, _, key, _, _, _) => key
    case Encoded(p, _, _) => p.idempotencyKey
  }

  function ProposalIdOf(s: Submission): Id {
    match s
    case Unencodable(_, proposalId, _, _, _, _) => proposalId
    case Encoded(p, _, _) => p.proposalId
  }

  function Representable(contract: Contract, proposer: Option<Actor>): Option<Actor> {
    if proposer.Some? && contract.actorValid(proposer.value) then proposer else None
  }

  function ProposerOf(contract: Contract, s: Submission): Option<Actor> {
    match s
    case Unencodable(_, _, _, proposer, _, _) => Representable(contract, proposer)
    case Encoded(p, _, _) => Representable(contract, Some(p.proposer))
  }

  function DecidedAt(s: Submission): Time {
    match s
    case Unencodable(_, _, _, _, _, now) => now
    case Encoded(p, _, _) => p.proposedAt
  }

  function Preflight(s: Submission): Option<Code> {
    match s
    case Unencodable(_, _, _, _, recursion, _) => Some(if recursion then ProposalTooDeep else MalformedProposal)
    case Encoded(_, tooDeep, tooLarge) =>
      if tooDeep then Some(ProposalTooDeep) else if tooLarge then Some(ProposalTooLarge) else None
  }

  // --------------------------------------------------------------------- receipts

  function Head(ledger: seq<Entry>): Option<EntryHash> {
    if ledger == [] then None else Some(ledger[|ledger| - 1].entryHash)
  }

  function MakeReceipt(contract: Contract, ordinal: nat, s: Submission, outcome: Outcome, reasons: seq<Code>,
                       entry: Option<Entry>, head: Option<EntryHash>, root: StateRoot, conflictIds: set<Id>): Receipt
  {
    var document := ReceiptDocument(
      ordinal,
      if contract.recordId(ProposalIdOf(s)) then Some(ProposalIdOf(s)) else None,
      HashOf(s),
      if contract.keyValid(KeyOf(s)) then Some(KeyOf(s)) else None,
      outcome, reasons,
      if entry.Some? then entry.value.prevHash else head,
      if entry.Some? then Some(entry.value.entryHash) else head,
      if entry.Some? then Some(entry.value.seq_) else None,
      conflictIds, DecidedAt(s), ProposerOf(contract, s));
    Receipt(ordinal, KeyOf(s), HashOf(s), ProposalIdOf(s), outcome, reasons,
      if entry.Some? then Some(entry.value.seq_) else None, root, conflictIds, ProposerOf(contract, s), document)
  }

  function OutcomeOf(failure: Failure): Outcome {
    if failure.Stale? then TransactionConflict else ValidationError
  }

  function Rejection(contract: Contract, state: State, s: Submission, failure: Failure): Receipt {
    MakeReceipt(contract, |state.receipts| + 1, s, OutcomeOf(failure), [failure.code], None,
      Head(state.ledger), StateRoot(state.tables), {})
  }

  /** The position of the first receipt stored under a key. */
  function FirstByKey(receipts: seq<Receipt>, key: string): (found: Option<nat>)
    ensures found.Some? ==> found.value < |receipts| && receipts[found.value].key == key
    ensures found.Some? ==> forall i :: 0 <= i < found.value ==> receipts[i].key != key
    ensures found.None? ==> forall i :: 0 <= i < |receipts| ==> receipts[i].key != key
  {
    if receipts == [] then None
    else
      var before := FirstByKey(receipts[..|receipts| - 1], key);
      if before.Some? then before
      else if receipts[|receipts| - 1].key == key then Some(|receipts| - 1)
      else None
  }

  // -------------------------------------------------------------------- evaluation

  ghost function CheckProposal(env: Env, t: Tables, p: Proposal): Option<Failure> {
    if !env.contract.proposalValid(p) then Some(Invalid(SchemaValidationFailed))
    else
      var versions := VersionsError(env.registry, p.versions);
      if versions.Some? then Some(Invalid(versions.value))
      else
        var missing := MissingRead(p.readSet, p.operations);
        if missing.Some? then Some(Invalid(missing.value))
        else
          var stale := ReadsAndGuardsError(env.registry, t, p);
          if stale.Some? then Some(Stale(stale.value))
          else
            var dangling := ReferencesError(env.registry, t, p.operations);
            if dangling.Some? then Some(Invalid(dangling.value)) else None
  }

  function MakeEntry(ledger: seq<Entry>, p: Proposal, events: seq<Event>, before: Tables, after: Tables): Entry {
    var prev := Head(ledger);
    var envelope := Envelope(|ledger| + 1, prev, OfProposal(p), StateRoot(before), StateRoot(after), p.versions,
        events, p.proposedAt);
    var document := EntryDocument(|ledger| + 1, prev, EntryHash(envelope), StateRoot(before), StateRoot(after),
      p.proposalId, OfProposal(p), p.versions, events, p.proposedAt);
    Entry(|ledger| + 1, prev, EntryHash(envelope), OfProposal(p), p, events, StateRoot(before), StateRoot(after),
        p.proposedAt, document)
  }

  datatype Accepted = Accepted(tables: Tables, entry: Entry, conflictIds: set<Id>)

  /** The transaction of a proposal that passed its checks. */
  ghost function Transact(env: Env, state: State, p: Proposal): Result<Accepted, Failure> {
    match ApplyOperations(env.registry, p.proposer, |state.ledger| + 1, state.tables, p.operations)
    case Err(failure) => Err(failure)
    case Ok(step) =>
      var entry := MakeEntry(state.ledger, p, step.events, state.tables, step.tables);
      if !env.contract.entryValid(entry.document) then Err(Invalid(LedgerEntrySchemaInvalid))
      else Ok(Accepted(step.tables, entry, Prediction.Ids(step.touched)))
  }

  ghost function Evaluate(env: Env, state: State, p: Proposal): Result<Accepted, Failure> {
    var refused := CheckProposal(env, state.tables, p);
    if refused.Some? then Err(refused.value) else Transact(env, state, p)
  }

  function Reject(env: Env, state: State, s: Submission, failure: Failure): (State, Receipt) {
    var receipt := Rejection(env.contract, state, s, failure);
    (state.(receipts := state.receipts + [receipt]), receipt)
  }

  function Accept(env: Env, state: State, s: Submission, accepted: Accepted): (State, Receipt) {
    var outcome := if accepted.conflictIds == {} then Committed else FactConflict;
    var receipt := MakeReceipt(env.contract, |state.receipts| + 1, s, outcome, [], Some(accepted.entry),
      Head(state.ledger), accepted.entry.postRoot, accepted.conflictIds);
    (State(accepted.tables, state.ledger + [accepted.entry], state.receipts + [receipt]), receipt)
  }

  /** One commit: the state it leaves and the receipt it returns. */
  ghost function Commit(env: Env, state: State, s: Submission): (State, Receipt) {
    var preflight := Preflight(s);
    if preflight.Some? then Reject(env, state, s, Invalid(preflight.value))
    else
      match FirstByKey(state.receipts, KeyOf(s))
      case Some(i) =>
        if state.receipts[i].proposalHash != HashOf(s) then Reject(env, state, s, Invalid(IdempotencyKeyReuse))
        else (state, state.receipts[i])
      case None =>
        match Evaluate(env, state, s.proposal)
        case Err(failure) => Reject(env, state, s, failure)
        case Ok(accepted) => Accept(env, state, s, accepted)
  }

  ghost function Run(env: Env, state: State, inputs: seq<Submission>): State
    decreases |inputs|
  {
    if inputs == [] then state
    else Commit(env, Run(env, state, inputs[..|inputs| - 1]), inputs[|inputs| - 1]).0
  }

  /** A commit that appended to the ledger. */
  ghost predicate Accepts(env: Env, state: State, s: Submission) {
    && Preflight(s).None? && FirstByKey(state.receipts, KeyOf(s)).None?
    && Evaluate(env, state, s.proposal).Ok?
  }

  lemma RunOneMore(env: Env, state: State, inputs: seq<Submission>, i: nat)
    requires i < |inputs|
    ensures Run(env, state, inputs[..i + 1]) == Commit(env, Run(env, state, inputs[..i]), inputs[i]).0
  {
    assert inputs[..i + 1][..i] == inputs[..i];
  }

  lemma {:induction false} RunSplit(env: Env, state: State, first: seq<Submission>, second: seq<Submission>)
    ensures Run(env, state, first + second) == Run(env, Run(env, state, first), second)
    decreases |second|
  {
    if second == [] {
      assert first + second == first;
    } else {
      var n := |second| - 1;
      assert (first + second)[..|first + second| - 1] == first + second[..n];
      RunSplit(env, state, first, second[..n]);
    }
  }
}
