/** The product store's skill boundary: proposals committed in place, and their replay. */
module SkillStore {
  import opened Skills
  import opened Wrappers

  /** The state as a value. */
  datatype State = State(
    skills: Table, committed: seq<Proposal>, proposalIds: set<string>, receipts: map<string, Receipt>)

  const EMPTY := State(map[], [], {}, map[])

  datatype Refusal = ProposalIdReuse

  function Decided(p: Proposal, outcome: Outcome, reasons: seq<Reason>, before: StateHash, after: StateHash): Receipt {
    Receipt(p.proposalId, ProposalHash(p), p.idempotencyKey, outcome, reasons, before, after)
  }

  /** A proposal entered with its receipt, unless its identifier is taken. */
  function Entered(s: State, p: Proposal, receipt: Receipt): Result<(State, Receipt), Refusal> {
    if p.proposalId in s.proposalIds then Err(ProposalIdReuse)
    else
      Ok((s.(proposalIds := s.proposalIds + {p.proposalId}, receipts := s.receipts[p.idempotencyKey := receipt],
             committed := if receipt.outcome == Committed then s.committed + [p] else s.committed),
          receipt))
  }

  /** What committing a proposal does and answers. */
  function Commit(s: State, p: Proposal, clock: seq<Time>, elsewhere: string): Result<(State, Receipt), Refusal>
    requires |clock| == |p.operations|
  {
    var before := StateHash(s.skills, elsewhere);
    if p.idempotencyKey in s.receipts then
      var prior := s.receipts[p.idempotencyKey];
      Ok((s, if prior.proposalHash == ProposalHash(p) then prior
             else prior.(outcome := ValidationError, reasons := [IdempotencyKeyReuse], stateBefore := before,
                 stateAfter := before)))
    else if p.expectedState.Some? && p.expectedState.value != before then
      Entered(s, p, Decided(p, TransactionConflict, [StateHashMismatch], before, before))
    else
      match ApplyAll(s.skills, p.operations, |p.operations|, p.proposedAt, clock)
      case Err(code) => Entered(s, p, Decided(p, OutcomeOf(code), [Failed(code)], before, before))
      case Ok(after) => Entered(s.(skills := after), p, Decided(p, Committed, [], before, StateHash(after, elsewhere)))
  }

  /** The state after an attempt; a refused proposal leaves it alone. */
  function After(s: State, p: Proposal, clock: seq<Time>, elsewhere: string): State
    requires |clock| == |p.operations|
  {
    match Commit(s, p, clock, elsewhere)
    case Ok((next, _)) => next
    case Err(_) => s
  }

  datatype Attempt = Attempt(proposal: Proposal, clock: seq<Time>, elsewhere: string)

  ghost predicate Timed(attempts: seq<Attempt>) {
    forall a :: a in attempts ==> |a.clock| == |a.proposal.operations|
  }

  /** A run of attempts. */
  function Run(attempts: seq<Attempt>): State
    requires Timed(attempts)
  {
    if attempts == [] then EMPTY
    else
      var last := attempts[|attempts| - 1];
      After(Run(attempts[..|attempts| - 1]), last.proposal, last.clock, last.elsewhere)
  }

  /** The attempt is applied and recorded as committed. */
  predicate Commits(s: State, p: Proposal, clock: seq<Time>, elsewhere: string)
    requires |clock| == |p.operations|
  {
    p.idempotencyKey !in s.receipts && Commit(s, p, clock, elsewhere).Ok?
    && Commit(s, p, clock, elsewhere).value.1.outcome == Committed
  }

  /** Every operation of every attempt that commits is faithful when it runs. */
  ghost predicate FaithfulRun(attempts: seq<Attempt>)
    requires Timed(attempts)
  {
    attempts == [] ||
    var front, last := attempts[..|attempts| - 1], attempts[|attempts| - 1];
    && FaithfulRun(front)
    && (Commits(Run(front), last.proposal, last.clock, last.elsewhere) ==>
          AllFaithful(Run(front).skills, last.proposal.operations, |last.proposal.operations|,
              last.proposal.proposedAt, last.clock))
  }

  /** In every run no skill ever has two approved versions. */
  lemma {:induction false} ReachableOneApproved(attempts: seq<Attempt>)
    requires Timed(attempts)
    ensures OneApproved(Run(attempts).skills)
  {
    if attempts != [] {
      var front, last := attempts[..|attempts| - 1], attempts[|attempts| - 1];
      ReachableOneApproved(front);
      var p := last.proposal;
      if ApplyAll(Run(front).skills, p.operations, |p.operations|, p.proposedAt, last.clock).Ok? {
        AllKeepOneApproved(Run(front).skills, p.operations, |p.operations|, p.proposedAt, last.clock);
      }
    }
  }

  ghost predicate Agrees(s: State) {
    Rebuild(s.committed, |s.committed|) == Some(Listing(s.skills))
  }

  lemma {:induction false} RebuildPrefix(a: seq<Proposal>, b: seq<Proposal>, n: nat)
    requires n <= |a| && a <= b
    ensures Rebuild(b, n) == Rebuild(a, n)
  {
    if n > 0 {
      RebuildPrefix(a, b, n - 1);
    }
  }

  lemma RebuildNext(committed: seq<Proposal>, p: Proposal)
    requires Rebuild(committed, |committed|).Some?
    ensures Rebuild(committed + [p], |committed| + 1)
         == ReplayAll(Rebuild(committed, |committed|).value, p.operations, |p.operations|, p.proposedAt)
  {
    RebuildPrefix(committed, committed + [p], |committed|);
  }

  /** An attempt that commits applies its operations and joins the committed proposals; any other
      leaves both alone. */
  lemma CommitEffect(s: State, p: Proposal, clock: seq<Time>, elsewhere: string)
    requires |clock| == |p.operations|
    ensures
      var after := After(s, p, clock, elsewhere);
      if Commits(s, p, clock, elsewhere) then
        && after.committed == s.committed + [p]
        && ApplyAll(s.skills, p.operations, |p.operations|, p.proposedAt, clock) == Ok(after.skills)
      else after.committed == s.committed && after.skills == s.skills
  {
  }

  lemma RecordedAgrees(t: Table, committed: seq<Proposal>, p: Proposal, clock: seq<Time>)
    requires |clock| == |p.operations| && OneApproved(t) && Rebuild(committed, |committed|) == Some(Listing(t))
    requires ApplyAll(t, p.operations, |p.operations|, p.proposedAt, clock).Ok?
    requires AllFaithful(t, p.operations, |p.operations|, p.proposedAt, clock)
    ensures Rebuild(committed + [p],
        |committed| + 1) == Some(Listing(ApplyAll(t, p.operations, |p.operations|, p.proposedAt, clock).value))
  {
    ProposalAgrees(t, p.operations, |p.operations|, p.proposedAt, clock);
    RebuildNext(committed, p);
  }

  lemma CommitAgrees(s: State, p: Proposal, clock: seq<Time>, elsewhere: string)
    requires |clock| == |p.operations| && OneApproved(s.skills) && Agrees(s)
    requires Commits(s, p, clock, elsewhere) ==>
        AllFaithful(s.skills, p.operations, |p.operations|, p.proposedAt, clock)
    ensures Agrees(After(s, p, clock, elsewhere))
  {
    CommitEffect(s, p, clock, elsewhere);
    if Commits(s, p, clock, elsewhere) {
      RecordedAgrees(s.skills, s.committed, p, clock);
    }
  }

  /** In every faithful run the replay of the committed proposals is exactly the table. */
  lemma {:induction false} ReplayEqualsTable(attempts: seq<Attempt>)
    requires Timed(attempts) && FaithfulRun(attempts)
    ensures Agrees(Run(attempts))
  {
    if attempts != [] {
      var front, last := attempts[..|attempts| - 1], attempts[|attempts| - 1];
      ReplayEqualsTable(front);
      ReachableOneApproved(front);
      CommitAgrees(Run(front), last.proposal, last.clock, last.elsewhere);
    }
  }

  lemma OneReplaysExactly(t: Table, operations: seq<Operation>, occurredAt: Time, now: Time)
    requires |operations| == 1 && OneApproved(t) && ApplyAll(t, operations, 1, occurredAt, [now]).Ok?
    ensures ReplaysTo(t, operations, 1, occurredAt, [now]) <==> Faithful(t, operations[0], now)
  {
    assert ApplyAll(t, operations, 0, occurredAt, [now]) == Ok(t);
    assert ReplayAll(Listing(t), operations, 0, occurredAt) == Some(Listing(t));
    StepAgrees(t, operations[0], occurredAt, now);
  }

  /** For a proposal of one operation that commits, the replay stays equal to the table exactly
      when the operation is faithful. */
  lemma OneOperationAgreesExactly(s: State, p: Proposal, now: Time, elsewhere: string)
    requires |p.operations| == 1 && OneApproved(s.skills) && Agrees(s) && Commits(s, p, [now], elsewhere)
    ensures Agrees(After(s, p, [now], elsewhere)) <==> Faithful(s.skills, p.operations[0], now)
  {
    CommitEffect(s, p, [now], elsewhere);
    RebuildNext(s.committed, p);
    OneReplaysExactly(s.skills, p.operations, p.proposedAt, now);
  }

  // ------------------------------------------------------ after every operation

  /** What the replay has after the committed proposals and the first `n` operations of another. */
  function ReplayedSoFar(s: State, p: Proposal, n: nat): Option<Replayed>
    requires n <= |p.operations|
  {
    match Rebuild(s.committed, |s.committed|)
    case None => None
    case Some(replayed) => ReplayAll(replayed, p.operations, n, p.proposedAt)
  }

  /** Replay and table are the same after each of the operations. */
  ghost predicate AgreesOnEach(s: State, p: Proposal, clock: seq<Time>)
    requires |clock| == |p.operations|
  {
    forall n :: 0 <= n <= |clock| ==> AgreesAfter(s, p, clock, n)
  }

  ghost predicate AgreesAfter(s: State, p: Proposal, clock: seq<Time>, n: nat)
    requires n <= |clock| == |p.operations|
  {
    && ApplyAll(s.skills, p.operations, n, p.proposedAt, clock).Ok?
    && ReplayedSoFar(s, p, n) == Some(Listing(ApplyAll(s.skills, p.operations, n, p.proposedAt, clock).value))
  }

  /** Replay and table are the same after every operation of every attempt that commits. */
  ghost predicate AgreesThroughout(attempts: seq<Attempt>)
    requires Timed(attempts)
  {
    attempts == [] ||
    var front, last := attempts[..|attempts| - 1], attempts[|attempts| - 1];
    && AgreesThroughout(front)
    && (Commits(Run(front), last.proposal, last.clock, last.elsewhere) ==>
          AgreesOnEach(Run(front), last.proposal, last.clock))
  }

  lemma ProposalAgreesOnEach(s: State, p: Proposal, clock: seq<Time>)
    requires |clock| == |p.operations| && OneApproved(s.skills) && Agrees(s)
    requires ApplyAll(s.skills, p.operations, |p.operations|, p.proposedAt, clock).Ok?
    ensures AgreesOnEach(s, p, clock) <==> AllFaithful(s.skills, p.operations, |p.operations|, p.proposedAt, clock)
  {
    AllAgreeExactly(s.skills, p.operations, |p.operations|, p.proposedAt, clock);
    forall n | 0 <= n <= |clock|
      ensures AgreesAfter(s, p, clock, n) <==> ReplaysTo(s.skills, p.operations, n, p.proposedAt, clock)
    {}
  }

  /** In every run, replay and table are the same after every operation of every committed
      proposal exactly when the run is faithful. */
  lemma {:induction false} ReplayAgreesExactly(attempts: seq<Attempt>)
    requires Timed(attempts)
    ensures AgreesThroughout(attempts) <==> FaithfulRun(attempts)
  {
    if attempts != [] {
      var front, last := attempts[..|attempts| - 1], attempts[|attempts| - 1];
      ReplayAgreesExactly(front);
      if FaithfulRun(front) && Commits(Run(front), last.proposal, last.clock, last.elsewhere) {
        ReplayEqualsTable(front);
        ReachableOneApproved(front);
        CommitEffect(Run(front), last.proposal, last.clock, last.elsewhere);
        ProposalAgreesOnEach(Run(front), last.proposal, last.clock);
      }
    }
  }

  // ------------------------------------------------------------ a run that is not faithful

  /** Two proposals with nothing in common but the version they bring in, the second in another status. */
  predicate Reimports(first: Proposal, second: Proposal, r: Record, status: Status) {
    && first.proposalId != second.proposalId && first.idempotencyKey != second.idempotencyKey
    && first.expectedState.None? && second.expectedState.None?
    && first.operations == [CreateSkill(r)] && second.operations == [ImportSkill(r.(status := status))]
  }

  lemma CreationCommits(p: Proposal, r: Record, now: Time, elsewhere: string)
    requires RowShaped(r) && r.status != Approved && p.expectedState.None? && p.operations == [CreateSkill(r)]
    ensures Commits(EMPTY, p, [now], elsewhere)
    ensures
      var one := After(EMPTY, p, [now], elsewhere);
      && Agrees(one) && OneApproved(one.skills) && r.key in one.skills && one.skills[r.key] == RowOf(r)
      && one.proposalIds == {p.proposalId} && one.receipts.Keys == {p.idempotencyKey}
  {
    assert ApplyAll(map[], p.operations, 0, p.proposedAt, [now]) == Ok(map[]);
    assert Agrees(EMPTY);
    OneOperationAgreesExactly(EMPTY, p, now, elsewhere);
  }

  lemma ReimportCommits(s: State, p: Proposal, r: Record, status: Status, now: Time, elsewhere: string)
    requires r.key in s.skills && s.skills[r.key] == RowOf(r) && status != r.status
    requires p.proposalId !in s.proposalIds && p.idempotencyKey !in s.receipts
    requires p.expectedState.None? && p.operations == [ImportSkill(r.(status := status))]
    ensures Commits(s, p, [now], elsewhere) && After(s, p, [now], elsewhere).skills == s.skills
    ensures !Faithful(s.skills, p.operations[0], now)
  {
    assert ApplyAll(s.skills, p.operations, 0, p.proposedAt, [now]) == Ok(s.skills);
  }

  /** Importing a version again with the same content but another status is accepted, changes
      nothing in the table, and makes the replay differ from it. */
  lemma ReimportBreaksReplay(first: Proposal, second: Proposal, r: Record, status: Status, created: Time, now: Time,
      elsewhere: string, later: string)
    requires Reimports(first, second, r, status) && RowShaped(r) && r.status != Approved && status != r.status
    ensures
      var attempts := [Attempt(first, [created], elsewhere), Attempt(second, [now], later)];
      Timed(attempts) && !Agrees(Run(attempts))
  {
    var attempts := [Attempt(first, [created], elsewhere), Attempt(second, [now], later)];
    var one := After(EMPTY, first, [created], elsewhere);
    assert attempts[..1] == [attempts[0]] && [attempts[0]][..0] == [];
    assert Run([attempts[0]]) == one;
    CreationCommits(first, r, created, elsewhere);
    ReimportCommits(one, second, r, status, now, later);
    OneOperationAgreesExactly(one, second, now, later);
  }

  // Values that the product schema admits, the value of a field being its text.

  const REVIEW_FIELDS: map<string, string> := map[
    "purpose" := "Review a change", "triggers" := "[review requested]", "preconditions" := "[]",
    "steps" := "[read the change, comment on it]", "resources" := "[]", "expected_outputs" := "[a review]",
    "validation_rules" := "[{}]"]

  const REVIEW: Record := Record(Key("skill:review", 1), Draft,
    "sha256:9f86d081884c7d659a2feaa0c55ad015a3bf4f1b2b0b822cd15d6c15b0f00a08", 0, 0,
    REVIEW_FIELDS["object_type" := "SKILL_RECORD"], REVIEW_FIELDS, map[])

  const CREATION: Proposal :=
    Proposal("product_proposal_000000000000000000000001", "review:create", 0, None, [CreateSkill(REVIEW)])

  const REIMPORT: Proposal :=
    Proposal("product_proposal_000000000000000000000002", "review:import", 1, None,
      [ImportSkill(REVIEW.(status := Tested))])

  lemma DocumentShapes(r: Record)
    requires r.document.Keys !! COLUMNS + {"object_type"} && r.fields == r.document["object_type" := "SKILL_RECORD"]
    ensures RowShaped(r)
  {
    assert (map["object_type" := "SKILL_RECORD"] + r.document) - COLUMNS == r.fields;
  }

  lemma ReviewIsReimported()
    ensures Reimports(CREATION, REIMPORT, REVIEW, Tested) && RowShaped(REVIEW)
  {
    DocumentShapes(REVIEW);
    assert CREATION.proposalId[|CREATION.proposalId| - 1] != REIMPORT.proposalId[|REIMPORT.proposalId| - 1];
    assert CREATION.idempotencyKey[7] == 'c' && REIMPORT.idempotencyKey[7] == 'i';
  }
}
