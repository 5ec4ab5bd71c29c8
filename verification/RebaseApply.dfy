/** Rebase hints for proposals that pass their reads and guards and then fail while their operations
    are applied: the builder compares what a resolution expects with the state before the proposal,
    the kernel with the state its earlier operations left. */
module RebaseApply {
  import opened Wrappers
  import opened Domain
  import opened Rules
  import opened Reducers
  import opened Preconditions
  import opened Rebase
  import opened Prediction
  import Continuity
  import R = Replay

  /** The tables operation `k` is applied to. */
  ghost function Before(registry: Registry, proposer: Actor, openedSeq: nat, t: Tables, ops: seq<Operation>,
      k: nat): Tables
    requires k <= |ops| && ApplyOperations(registry, proposer, openedSeq, t, ops[..k]).Ok?
  {
    ApplyOperations(registry, proposer, openedSeq, t, ops[..k]).value.tables
  }

  /** The kernel stops at operation `k`, with a code that makes the receipt a transaction conflict. */
  ghost predicate StopsAt(registry: Registry, proposer: Actor, openedSeq: nat, t: Tables, ops: seq<Operation>, k: nat,
      code: Code) {
    && k < |ops| && ApplyOperations(registry, proposer, openedSeq, t, ops[..k]).Ok?
    && ApplyOperation(registry, proposer, openedSeq, Before(registry, proposer, openedSeq, t, ops, k),
        ops[k]) == Err(Stale(code))
  }

  /** What a precondition on a conflict compares. */
  function Observed(t: Tables, c: Id, code: Code): Value {
    if c !in t.conflicts then Absent
    else if code == ConflictMemberDigestMismatch then Digest(t.conflicts[c].memberDigest)
    else Episode(t.conflicts[c].episode)
  }

  function Stated(op: Operation, code: Code): Value
    requires op.ResolveConflict?
  {
    if code == ConflictMemberDigestMismatch then Digest(op.expectedMemberDigest)
        else Episode(op.resolution.resolutionEpoch)
  }

  function StatedAt(i: nat, code: Code): Path {
    if code == ConflictMemberDigestMismatch then DigestPath(i) else EpochPath(i)
  }

  predicate ComparesConflict(code: Code) {
    code == ConflictMemberDigestMismatch || code == ConflictResolutionEpochMismatch
  }

  /** The operation states something else than its conflict has. */
  predicate Misstates(t: Tables, op: Operation, code: Code) {
    ComparesConflict(code) && op.ResolveConflict? && Stated(op, code) != Observed(t, op.conflictId, code)
  }

  lemma MisstatedIsFailed(t: Tables, n: nat, op: Operation, code: Code)
    ensures
      match FirstFailed(OfOperation(t, n, op), code)
      case None => !Misstates(t, op, code)
      case Some(item) => item.path == StatedAt(n, code) && Misstates(t, op, code)
  {
    if op.ResolveConflict? {
      var items := OfOperation(t, n, op);
      FirstOfTwo(items[0], items[1], code);
      assert items == [items[0], items[1]];
    }
  }

  lemma FirstOfTwo(a: Precondition, b: Precondition, code: Code)
    ensures FirstFailed([a, b], code) ==
            if Fails(Some(a), code) then Some(a) else if Fails(Some(b), code) then Some(b) else None
  {
    assert [a, b][1..] == [b] && [b][1..] == [];
    assert FirstFailed([b], code) == if Fails(Some(b), code) then Some(b) else FirstFailed([], code);
  }

  ghost predicate FirstSeen(t: Tables, ops: seq<Operation>, i: nat, code: Code) {
    i < |ops| && Misstates(t, ops[i], code) && forall j :: 0 <= j < i ==> !Misstates(t, ops[j], code)
  }

  /** What was found among the first `n` operations is the first resolution that misstates its conflict. */
  ghost predicate FirstAmong(found: Option<Precondition>, t: Tables, ops: seq<Operation>, n: nat, first: nat,
      code: Code)
    requires n <= |ops|
  {
    match found
    case None => forall i :: 0 <= i < n ==> !Misstates(t, ops[i], code)
    case Some(item) => first < n && item.path == StatedAt(first, code) && FirstSeen(t, ops, first, code)
  }

  lemma FirstAmongOneMore(front: Option<Precondition>, last: Option<Precondition>, t: Tables, ops: seq<Operation>,
      n: nat, first: nat, code: Code)
    requires n < |ops| && FirstAmong(front, t, ops, n, first, code)
    requires last.Some? <==> Misstates(t, ops[n], code)
    requires last.Some? ==> last.value.path == StatedAt(n, code)
    ensures if front.Some? then FirstAmong(front, t, ops, n + 1, first, code)
        else FirstAmong(last, t, ops, n + 1, n, code)
  {}

  lemma NextFailed(t: Tables, ops: seq<Operation>, n: nat, code: Code)
    requires n < |ops|
    ensures
      var front := FirstFailed(OfOperations(t, ops[..n]), code);
      FirstFailed(OfOperations(t, ops[..n + 1]), code) == if front.Some? then front
          else FirstFailed(OfOperation(t, n, ops[n]), code)
  {
    assert ops[..n + 1][..n] == ops[..n];
    assert OfOperations(t, ops[..n + 1]) == OfOperations(t, ops[..n]) + OfOperation(t, n, ops[n]);
    FirstFailedAppend(OfOperations(t, ops[..n]), OfOperation(t, n, ops[n]), code);
  }

  /** One operation more. */
  lemma NextSeen(t: Tables, ops: seq<Operation>, n: nat, code: Code, before: nat) returns (first: nat)
    requires n < |ops| && FirstAmong(FirstFailed(OfOperations(t, ops[..n]), code), t, ops, n, before, code)
    ensures FirstAmong(FirstFailed(OfOperations(t, ops[..n + 1]), code), t, ops, n + 1, first, code)
  {
    var front, last := FirstFailed(OfOperations(t, ops[..n]), code), FirstFailed(OfOperation(t, n, ops[n]), code);
    NextFailed(t, ops, n, code);
    MisstatedIsFailed(t, n, ops[n], code);
    FirstAmongOneMore(front, last, t, ops, n, before, code);
    first := if front.Some? then before else n;
  }

  lemma {:induction false} FirstSeenFailing(t: Tables, ops: seq<Operation>, n: nat, code: Code) returns (first: nat)
    requires n <= |ops|
    ensures FirstAmong(FirstFailed(OfOperations(t, ops[..n]), code), t, ops, n, first, code)
  {
    first := 0;
    if n > 0 {
      first := FirstSeenFailing(t, ops, n - 1, code);
      first := NextSeen(t, ops, n - 1, code, first);
    }
  }

  lemma FoundIsFirstSeen(found: Option<Precondition>, t: Tables, ops: seq<Operation>, first: nat, k: nat, code: Code)
    requires FirstAmong(found, t, ops, |ops|, first, code)
    ensures found.Some? <==> exists i :: 0 <= i < |ops| && Misstates(t, ops[i], code)
    ensures found.Some? && found.value.path == StatedAt(k, code) <==> FirstSeen(t, ops, k, code)
  {
    if FirstSeen(t, ops, k, code) && found.Some? {
      assert first == k;
    }
  }

  /** Reads and guards that passed give the builder nothing to name. */
  lemma OnlyOperationsFail(registry: Registry, t: Tables, p: Proposal, code: Code)
    requires ReadsAndGuardsError(registry, t, p).None?
    ensures FirstFailed(ProposalPreconditions(registry, t, p), code) == FirstFailed(OfOperations(t, p.operations), code)
  {
    var fromReads, fromGuards := OfReads(registry, t, p.readSet), OfGuards(registry, t, p.guards);
    ReadsAgree(registry, t, p.readSet, code);
    GuardsAgree(registry, t, p.guards, code);
    FirstFailedAppend(fromReads, fromGuards, code);
    FirstFailedAppend(fromReads + fromGuards, OfOperations(t, p.operations), code);
  }

  /** An applied resolution stated what its conflict had when it was applied. */
  lemma AppliedStatesBefore(registry: Registry, proposer: Actor, openedSeq: nat, t: Tables, op: Operation, code: Code)
    requires op.ResolveConflict? && ComparesConflict(code) && ApplyOperation(registry, proposer, openedSeq, t, op).Ok?
    ensures Stated(op, code) == Observed(t, op.conflictId, code)
  {}

  lemma StoppedStates(registry: Registry, proposer: Actor, openedSeq: nat, t: Tables, op: Operation, code: Code)
    requires ApplyOperation(registry, proposer, openedSeq, t, op) == Err(Stale(code)) && ComparesConflict(code)
    ensures op.ResolveConflict? && Stated(op, code) != Observed(t, op.conflictId, code)
  {
    if op.AssertClaim? {
      AssertionIsNeverStale(registry, t, op.claim, op.initialEvidence, {}, openedSeq);
    } else if op.SupersedeClaim? {
      AssertionIsNeverStale(registry, t, op.replacementClaim, op.replacementEvidence, {op.targetClaim}, openedSeq);
    }
  }

  lemma AssertionIsNeverStale(registry: Registry, t: Tables, claim: Claim, evidence: seq<EvidenceLink>,
      ignored: set<Id>, openedSeq: nat)
    ensures AssertNewClaim(registry, t, claim, evidence, ignored, openedSeq).Err? ==>
              AssertNewClaim(registry, t, claim, evidence, ignored, openedSeq).error.Invalid?
  {
    var claimed := t.(claims := t.claims[claim.claimId := FreshClaimRow(claim)]);
    LinksAreNeverStale(claimed, evidence, claim.claimId);
  }

  lemma {:induction false} LinksAreNeverStale(t: Tables, links: seq<EvidenceLink>, claimId: Id)
    ensures InsertLinks(t, links, claimId).Err? ==> InsertLinks(t, links, claimId).error.Invalid?
    decreases |links|
  {
    if links != [] {
      LinksAreNeverStale(t, links[..|links| - 1], claimId);
    }
  }

  // ------------------------------------------- what earlier operations do to conflicts

  /** A step leaves every conflict it does not touch with its members, digest and episode, and gives
      every one it touches a member that was no claim before. */
  ghost predicate Touches(t: Tables, after: Tables, touched: set<Id>) {
    && (forall c :: c !in touched ==> (c in t.conflicts <==> c in after.conflicts))
    && (forall c :: c !in touched && c in t.conflicts ==> SameContent(t.conflicts[c], after.conflicts[c]))
    && (forall c :: c in touched ==> c in after.conflicts && NewMember(t, after.conflicts[c]))
    && t.claims.Keys <= after.claims.Keys
  }

  predicate SameContent(a: ConflictRow, b: ConflictRow) {
    a.members == b.members && a.memberDigest == b.memberDigest && a.episode == b.episode
  }

  ghost predicate NewMember(t: Tables, row: ConflictRow) {
    row.memberDigest == MemberDigest(row.members) && exists m :: m in row.members && m !in t.claims
  }

  lemma OpeningTouches(t: Tables, admitted: Tables, incoming: Claim, def: Predicate, ignored: set<Id>,
      kind: ConflictKind, openedSeq: nat)
    requires incoming.claimId !in t.claims && OpenKind(admitted, incoming, def, ignored, kind, openedSeq).Ok?
    ensures
      var step := OpenKind(admitted, incoming, def, ignored, kind, openedSeq).value;
      && step.tables == admitted.(conflicts := step.tables.conflicts)
      && (forall c :: c in Ids(step.touched) ==> c in step.tables.conflicts && NewMember(t, step.tables.conflicts[c]))
      && (forall c :: c !in Ids(step.touched) ==> (c in step.tables.conflicts <==> c in admitted.conflicts))
      && (forall c ::
          c !in Ids(step.touched) && c in admitted.conflicts ==> step.tables.conflicts[c] == admitted.conflicts[c])
  {
    var rivals := Rivals(admitted.claims, incoming, def, ignored, kind);
    if rivals != {} {
      var (c, row) := OpenRow(admitted.conflicts, FamilyKeyUnder(incoming.proposition, def), kind,
          rivals + {incoming.claimId}, openedSeq).value;
      assert incoming.claimId in row.members;
    }
  }

  lemma OpeningsTouch(t: Tables, admitted: Tables, incoming: Claim, def: Predicate, ignored: set<Id>, openedSeq: nat)
    requires incoming.claimId !in t.claims && t.claims.Keys <= admitted.claims.Keys && admitted.conflicts == t.conflicts
    requires OpenConflicts(admitted, incoming, def, ignored, openedSeq).Ok?
    ensures
      var step := OpenConflicts(admitted, incoming, def, ignored, openedSeq).value;
      Touches(t, step.tables, Ids(step.touched))
  {
    var first := OpenKind(admitted, incoming, def, ignored, ExclusiveValue, openedSeq).value;
    var second := OpenKind(first.tables, incoming, def, ignored, PolarityClash, openedSeq).value;
    OpeningTouches(t, admitted, incoming, def, ignored, ExclusiveValue, openedSeq);
    OpeningTouches(t, first.tables, incoming, def, ignored, PolarityClash, openedSeq);
    IdsAppend(first.touched, second.touched);
  }

  lemma AssertionTouches(registry: Registry, t: Tables, claim: Claim, evidence: seq<EvidenceLink>, ignored: set<Id>,
      openedSeq: nat)
    requires AssertNewClaim(registry, t, claim, evidence, ignored, openedSeq).Ok?
    ensures
      var step := AssertNewClaim(registry, t, claim, evidence, ignored, openedSeq).value;
      Touches(t, step.tables, Ids(step.touched))
  {
    OpeningsTouch(t, AdmitClaim(registry, t, claim, evidence).value, claim,
        registry.predicates[claim.proposition.predicateKey],
      ignored, openedSeq);
  }

  lemma OperationTouches(registry: Registry, proposer: Actor, openedSeq: nat, t: Tables, op: Operation)
    requires ApplyOperation(registry, proposer, openedSeq, t, op).Ok?
    ensures
      var step := ApplyOperation(registry, proposer, openedSeq, t, op).value;
      Touches(t, step.tables, Ids(step.touched))
  {
    if op.AssertClaim? {
      AssertionTouches(registry, t, op.claim, op.initialEvidence, {}, openedSeq);
    } else if op.SupersedeClaim? {
      AssertionTouches(registry, t, op.replacementClaim, op.replacementEvidence, {op.targetClaim}, openedSeq);
    } else {
      QuietOperationTouches(registry, proposer, openedSeq, t, op);
    }
  }

  lemma QuietOperationTouches(registry: Registry, proposer: Actor, openedSeq: nat, t: Tables, op: Operation)
    requires !op.AssertClaim? && !op.SupersedeClaim?
    requires ApplyOperation(registry, proposer, openedSeq, t, op).Ok?
    ensures
      var step := ApplyOperation(registry, proposer, openedSeq, t, op).value;
      Touches(t, step.tables, {}) && step.touched == []
  {
    if Continuity.IsContinuityOperation(op) {
      ContinuityTouchesNothing(t, op);
    }
  }

  lemma ContinuityTouchesNothing(t: Tables, op: Operation)
    requires Continuity.IsContinuityOperation(op) && Continuity.Apply(t, op).Ok?
    ensures Continuity.Apply(t, op).value.tables.conflicts == t.conflicts
    ensures Continuity.Apply(t, op).value.tables.claims == t.claims
  {}

  lemma TouchesBoth(t: Tables, between: Tables, after: Tables, first: set<Id>, second: set<Id>)
    requires Touches(t, between, first) && Touches(between, after, second)
    ensures Touches(t, after, first + second)
  {
    forall c | c in first + second
      ensures c in after.conflicts && NewMember(t, after.conflicts[c])
    {
      if c in second {
        var m :| m in after.conflicts[c].members && m !in between.claims;
        assert m !in t.claims;
      } else {
        assert SameContent(between.conflicts[c], after.conflicts[c]);
        var m :| m in between.conflicts[c].members && m !in t.claims;
      }
    }
  }

  lemma {:induction false} OperationsTouch(registry: Registry, proposer: Actor, openedSeq: nat, t: Tables,
      ops: seq<Operation>)
    requires ApplyOperations(registry, proposer, openedSeq, t, ops).Ok?
    ensures
      var step := ApplyOperations(registry, proposer, openedSeq, t, ops).value;
      Touches(t, step.tables, Ids(step.touched))
    decreases |ops|
  {
    if ops != [] {
      var n := |ops| - 1;
      OperationsTouch(registry, proposer, openedSeq, t, ops[..n]);
      var before := ApplyOperations(registry, proposer, openedSeq, t, ops[..n]).value;
      var last := ApplyOperation(registry, proposer, openedSeq, before.tables, ops[n]).value;
      OperationTouches(registry, proposer, openedSeq, before.tables, ops[n]);
      TouchesBoth(t, before.tables, last.tables, Ids(before.touched), Ids(last.touched));
      IdsAppend(before.touched, last.touched);
    }
  }

  // ------------------------------------------------------------------- main results

  lemma HintNamesFound(registry: Registry, t: Tables, p: Proposal, k: nat, code: Code, found: Option<Precondition>)
    requires found == FirstFailed(ProposalPreconditions(registry, t, p), code)
    ensures
      var hint := BuildHint(registry, t, p, code);
      && (hint.Some? <==> found.Some?)
      && (Names(hint, k, code) <==> found.Some? && found.value.path == StatedAt(k, code))
  {}

  /** The hint names the first resolution the builder sees failing, if there is one. */
  lemma NamesFirstSeen(registry: Registry, t: Tables, p: Proposal, k: nat, code: Code)
    requires ReadsAndGuardsError(registry, t, p).None?
    ensures
      var hint := BuildHint(registry, t, p, code);
      && (hint.Some? <==> exists i :: 0 <= i < |p.operations| && Misstates(t, p.operations[i], code))
      && (Names(hint, k, code) <==> FirstSeen(t, p.operations, k, code))
  {
    var found := FirstFailed(OfOperations(t, p.operations), code);
    OnlyOperationsFail(registry, t, p, code);
    HintNamesFound(registry, t, p, k, code, found);
    var first := FirstSeenFailing(t, p.operations, |p.operations|, code);
    assert p.operations[..|p.operations|] == p.operations;
    FoundIsFirstSeen(found, t, p.operations, first, k, code);
  }

  lemma {:induction false} EarlierApplied(registry: Registry, proposer: Actor, openedSeq: nat, t: Tables,
      ops: seq<Operation>, j: nat, k: nat)
    requires j < k <= |ops| && ApplyOperations(registry, proposer, openedSeq, t, ops[..k]).Ok?
    ensures ApplyOperations(registry, proposer, openedSeq, t, ops[..j]).Ok?
    ensures ApplyOperation(registry, proposer, openedSeq, Before(registry, proposer, openedSeq, t, ops, j), ops[j]).Ok?
    decreases k
  {
    assert ops[..k][..k - 1] == ops[..k - 1];
    if j < k - 1 {
      EarlierApplied(registry, proposer, openedSeq, t, ops, j, k - 1);
    }
  }

  /** Operation `j` finds its conflict as it was before the proposal. */
  ghost predicate FindsItAsBefore(registry: Registry, proposer: Actor, openedSeq: nat, t: Tables, ops: seq<Operation>,
      j: nat, code: Code) {
    && j < |ops| && ApplyOperations(registry, proposer, openedSeq, t, ops[..j]).Ok?
    && (ops[j].ResolveConflict? ==>
          Observed(t, ops[j].conflictId, code) == Observed(Before(registry, proposer, openedSeq, t, ops, j),
              ops[j].conflictId, code))
  }

  /** The builder sees an applied resolution fail exactly when the conflict was changed before it. */
  lemma AppliedIsSeenFailing(registry: Registry, proposer: Actor, openedSeq: nat, t: Tables, ops: seq<Operation>,
      j: nat, k: nat, code: Code)
    requires j < k <= |ops| && ApplyOperations(registry, proposer, openedSeq, t, ops[..k]).Ok? && ComparesConflict(code)
    ensures FindsItAsBefore(registry, proposer, openedSeq, t, ops, j, code) <==> !Misstates(t, ops[j], code)
  {
    EarlierApplied(registry, proposer, openedSeq, t, ops, j, k);
    if ops[j].ResolveConflict? {
      AppliedStatesBefore(registry, proposer, openedSeq, Before(registry, proposer, openedSeq, t, ops, j), ops[j],
          code);
    }
  }

  /** The hint names operation `k`. */
  predicate Names(hint: Option<Hint>, k: nat, code: Code) {
    hint.Some? && hint.value.failed.path == StatedAt(k, code)
  }

  /** When operation `k` stops the kernel with a transaction conflict: only a digest or an epoch that
      a resolution states is ever hinted, and the hint names that very operation exactly when it
      misstates what its conflict had before the proposal and every earlier resolution found its own
      conflict as it was then. */
  lemma HintNamesFailedOperation(registry: Registry, proposer: Actor, openedSeq: nat, t: Tables, p: Proposal, k: nat,
      code: Code)
    requires ReadsAndGuardsError(registry, t, p).None?
    requires StopsAt(registry, proposer, openedSeq, t, p.operations, k, code)
    ensures
      var hint := BuildHint(registry, t, p, code);
      && (hint.Some? <==> exists i :: 0 <= i < |p.operations| && Misstates(t, p.operations[i], code))
      && (Names(hint, k, code) <==>
            Misstates(t, p.operations[k], code)
            && forall j :: 0 <= j < k ==> FindsItAsBefore(registry, proposer, openedSeq, t, p.operations, j, code))
  {
    NamesFirstSeen(registry, t, p, k, code);
    forall j | 0 <= j < k && ComparesConflict(code)
      ensures FindsItAsBefore(registry, proposer, openedSeq, t, p.operations, j, code) <==>
          !Misstates(t, p.operations[j], code)
    {
      AppliedIsSeenFailing(registry, proposer, openedSeq, t, p.operations, j, k, code);
    }
  }

  /** For digests the condition can be read off the proposal: no earlier resolution is of a conflict
      that the operations before it are predicted to open, merge or reopen. */
  lemma DigestHintNamesFailedOperation(registry: Registry, proposer: Actor, openedSeq: nat, t: Tables, p: Proposal,
      k: nat)
    requires FamiliesNamePredicate(registry) && R.Sound(registry, t) && ReadsAndGuardsError(registry, t, p).None?
    requires StopsAt(registry, proposer, openedSeq, t, p.operations, k, ConflictMemberDigestMismatch)
    ensures
      var ops := p.operations;
      && (Names(BuildHint(registry, t, p, ConflictMemberDigestMismatch), k, ConflictMemberDigestMismatch) <==>
            Misstates(t, ops[k], ConflictMemberDigestMismatch)
            && forall j ::
                0 <= j < k && ops[j].ResolveConflict? ==> ops[j].conflictId !in Predicted(registry, t, ops[..j]))
      && (ops[k].ResolveConflict? && ops[k].conflictId !in Predicted(registry, t, ops[..k]) ==>
          Misstates(t, ops[k], ConflictMemberDigestMismatch))
  {
    var ops, code := p.operations, ConflictMemberDigestMismatch;
    HintNamesFailedOperation(registry, proposer, openedSeq, t, p, k, code);
    forall j | 0 <= j <= k
      ensures FindsItAsBefore(registry, proposer, openedSeq, t, ops, j, code) <==>
              (ops[j].ResolveConflict? ==> ops[j].conflictId !in Predicted(registry, t, ops[..j]))
    {
      if j < k {
        EarlierApplied(registry, proposer, openedSeq, t, ops, j, k);
      }
      if ops[j].ResolveConflict? {
        PredictedFindsItAsBefore(registry, proposer, openedSeq, t, ops, j);
      }
    }
    StoppedStates(registry, proposer, openedSeq, Before(registry, proposer, openedSeq, t, ops, k), ops[k], code);
  }

  /** A conflict keeps its digest exactly when it is not predicted: what touches it adds a new claim. */
  lemma PredictedFindsItAsBefore(registry: Registry, proposer: Actor, openedSeq: nat, t: Tables, ops: seq<Operation>,
      j: nat)
    requires FamiliesNamePredicate(registry) && R.Sound(registry, t)
    requires j < |ops| && ApplyOperations(registry, proposer, openedSeq, t, ops[..j]).Ok?
    requires ops[j].ResolveConflict?
    ensures FindsItAsBefore(registry, proposer, openedSeq, t, ops, j, ConflictMemberDigestMismatch) <==>
            ops[j].conflictId !in Predicted(registry, t, ops[..j])
  {
    var c := ops[j].conflictId;
    var step := ApplyOperations(registry, proposer, openedSeq, t, ops[..j]).value;
    PredictionIsExecution(registry, proposer, openedSeq, t, ops[..j]);
    OperationsTouch(registry, proposer, openedSeq, t, ops[..j]);
    if c in t.conflicts && c in Ids(step.touched) {
      assert R.RowSound(registry, t.claims, c, t.conflicts[c]);
      var m :| m in step.tables.conflicts[c].members && m !in t.claims;
    }
  }

  // ------------------------------------------------------------------- and for epochs

  predicate Resolves(op: Operation, c: Id) {
    op.ResolveConflict? && op.conflictId == c
  }

  /** What an operation other than its resolution does to a conflict: an open one stays in its
      episode, a resolved one may be reopened in the next. */
  predicate Continues(a: ConflictRow, b: ConflictRow) {
    || (b.episode == a.episode && b.status == a.status)
    || (b.episode == a.episode + 1 && a.status == Resolved && b.status == Open)
  }

  lemma OpeningContinues(t: Tables, incoming: Claim, def: Predicate, ignored: set<Id>, kind: ConflictKind,
      openedSeq: nat, c: Id)
    requires c in t.conflicts && OpenKind(t, incoming, def, ignored, kind, openedSeq).Ok?
    ensures
      var after := OpenKind(t, incoming, def, ignored, kind, openedSeq).value.tables.conflicts;
      c in after && Continues(t.conflicts[c], after[c])
  {}

  lemma AssertionContinues(registry: Registry, t: Tables, claim: Claim, evidence: seq<EvidenceLink>, ignored: set<Id>,
      openedSeq: nat, c: Id)
    requires c in t.conflicts && AssertNewClaim(registry, t, claim, evidence, ignored, openedSeq).Ok?
    ensures
      var after := AssertNewClaim(registry, t, claim, evidence, ignored, openedSeq).value.tables.conflicts;
      c in after && Continues(t.conflicts[c], after[c])
  {
    var admitted := AdmitClaim(registry, t, claim, evidence).value;
    var def := registry.predicates[claim.proposition.predicateKey];
    var first := OpenKind(admitted, claim, def, ignored, ExclusiveValue, openedSeq).value;
    OpeningContinues(admitted, claim, def, ignored, ExclusiveValue, openedSeq, c);
    OpeningContinues(first.tables, claim, def, ignored, PolarityClash, openedSeq, c);
  }

  /** One operation on one conflict. */
  ghost predicate Advances(op: Operation, a: ConflictRow, b: ConflictRow, c: Id) {
    if Resolves(op, c) then a.status == Open && b.status == Resolved && b.episode == a.episode else Continues(a, b)
  }

  lemma OperationAdvances(registry: Registry, proposer: Actor, openedSeq: nat, t: Tables, op: Operation, c: Id)
    requires c in t.conflicts && ApplyOperation(registry, proposer, openedSeq, t, op).Ok?
    ensures
      var after := ApplyOperation(registry, proposer, openedSeq, t, op).value.tables.conflicts;
      c in after && Advances(op, t.conflicts[c], after[c], c)
  {
    if op.AssertClaim? {
      AssertionContinues(registry, t, op.claim, op.initialEvidence, {}, openedSeq, c);
    } else if op.SupersedeClaim? {
      AssertionContinues(registry, t, op.replacementClaim, op.replacementEvidence, {op.targetClaim}, openedSeq, c);
    } else if Continuity.IsContinuityOperation(op) {
      ContinuityTouchesNothing(t, op);
    }
  }

  /** A conflict that is open before the proposal and that none of the first `j` operations resolves. */
  predicate StaysOpen(t: Tables, ops: seq<Operation>, j: nat, c: Id)
    requires j <= |ops|
  {
    c in t.conflicts && t.conflicts[c].status == Open && forall i :: 0 <= i < j ==> !Resolves(ops[i], c)
  }

  /** Such a conflict keeps its episode; any other one is resolved or in a later episode. */
  predicate EpisodeMoved(t: Tables, ops: seq<Operation>, j: nat, c: Id, a: ConflictRow, b: ConflictRow)
    requires j <= |ops|
  {
    if StaysOpen(t, ops, j, c) then b.status == Open && b.episode == a.episode
    else b.episode > a.episode || (b.episode == a.episode && b.status == Resolved)
  }

  lemma EpisodeMovesOn(t: Tables, ops: seq<Operation>, j: nat, c: Id, a: ConflictRow, b: ConflictRow, d: ConflictRow)
    requires j < |ops| && EpisodeMoved(t, ops, j, c, a, b) && Advances(ops[j], b, d, c)
    ensures EpisodeMoved(t, ops, j + 1, c, a, d)
  {
    assert StaysOpen(t, ops, j + 1, c) <==> StaysOpen(t, ops, j, c) && !Resolves(ops[j], c);
  }

  lemma {:induction false} EpisodesMove(registry: Registry, proposer: Actor, openedSeq: nat, t: Tables,
      ops: seq<Operation>, j: nat, c: Id)
    requires j <= |ops| && ApplyOperations(registry, proposer, openedSeq, t, ops[..j]).Ok? && c in t.conflicts
    ensures
      var after := Before(registry, proposer, openedSeq, t, ops, j).conflicts;
      c in after && EpisodeMoved(t, ops, j, c, t.conflicts[c], after[c])
  {
    if j == 0 {
      assert ops[..0] == [];
    } else {
      assert ops[..j][..j - 1] == ops[..j - 1];
      EpisodesMove(registry, proposer, openedSeq, t, ops, j - 1, c);
      var between := Before(registry, proposer, openedSeq, t, ops, j - 1);
      OperationAdvances(registry, proposer, openedSeq, between, ops[j - 1], c);
      EpisodeMovesOn(t, ops, j - 1, c, t.conflicts[c], between.conflicts[c],
        Before(registry, proposer, openedSeq, t, ops, j).conflicts[c]);
    }
  }

  /** A resolution of an open conflict finds the episode of before exactly when the conflict stayed open. */
  lemma OpenFindsItAsBefore(registry: Registry, proposer: Actor, openedSeq: nat, t: Tables, ops: seq<Operation>, j: nat)
    requires j < |ops| && ApplyOperations(registry, proposer, openedSeq, t, ops[..j]).Ok? && ops[j].ResolveConflict?
    requires
      var now := Before(registry, proposer, openedSeq, t, ops, j).conflicts;
      ops[j].conflictId in now && now[ops[j].conflictId].status == Open
    ensures FindsItAsBefore(registry, proposer, openedSeq, t, ops, j, ConflictResolutionEpochMismatch) <==>
            StaysOpen(t, ops, j, ops[j].conflictId)
  {
    if ops[j].conflictId in t.conflicts {
      EpisodesMove(registry, proposer, openedSeq, t, ops, j, ops[j].conflictId);
    }
  }

  lemma ResolvesOpen(registry: Registry, proposer: Actor, openedSeq: nat, t: Tables, op: Operation)
    requires op.ResolveConflict?
    requires
      var r := ApplyOperation(registry, proposer, openedSeq, t, op);
      r.Ok? || r == Err(Stale(ConflictResolutionEpochMismatch))
    ensures op.conflictId in t.conflicts && t.conflicts[op.conflictId].status == Open
  {}

  /** What an operation at or before the failing one finds. */
  lemma FindsItOpen(registry: Registry, proposer: Actor, openedSeq: nat, t: Tables, ops: seq<Operation>, j: nat, k: nat)
    requires StopsAt(registry, proposer, openedSeq, t, ops, k, ConflictResolutionEpochMismatch) && j <= k
    ensures FindsItAsBefore(registry, proposer, openedSeq, t, ops, j, ConflictResolutionEpochMismatch) <==>
            (ops[j].ResolveConflict? ==> StaysOpen(t, ops, j, ops[j].conflictId))
  {
    if j < k {
      EarlierApplied(registry, proposer, openedSeq, t, ops, j, k);
    }
    if ops[j].ResolveConflict? {
      ResolvesOpen(registry, proposer, openedSeq, Before(registry, proposer, openedSeq, t, ops, j), ops[j]);
      OpenFindsItAsBefore(registry, proposer, openedSeq, t, ops, j);
    }
  }

  /** The failing operation is seen failing if its conflict stayed open. */
  lemma StopIsSeen(registry: Registry, proposer: Actor, openedSeq: nat, t: Tables, ops: seq<Operation>, k: nat)
    requires StopsAt(registry, proposer, openedSeq, t, ops, k, ConflictResolutionEpochMismatch)
    requires ops[k].ResolveConflict? && StaysOpen(t, ops, k, ops[k].conflictId)
    ensures Misstates(t, ops[k], ConflictResolutionEpochMismatch)
  {
    FindsItOpen(registry, proposer, openedSeq, t, ops, k, k);
    StoppedStates(registry, proposer, openedSeq, Before(registry, proposer, openedSeq, t, ops, k), ops[k],
      ConflictResolutionEpochMismatch);
  }

  /** For epochs too the condition can be read off the proposal and the tables before it: every earlier
      resolution is of a conflict that was open and that no operation before it resolves. */
  lemma EpochHintNamesFailedOperation(registry: Registry, proposer: Actor, openedSeq: nat, t: Tables, p: Proposal,
      k: nat)
    requires ReadsAndGuardsError(registry, t, p).None?
    requires StopsAt(registry, proposer, openedSeq, t, p.operations, k, ConflictResolutionEpochMismatch)
    ensures
      var ops := p.operations;
      && (Names(BuildHint(registry, t, p, ConflictResolutionEpochMismatch), k, ConflictResolutionEpochMismatch) <==>
            Misstates(t, ops[k], ConflictResolutionEpochMismatch)
            && forall j :: 0 <= j < k && ops[j].ResolveConflict? ==> StaysOpen(t, ops, j, ops[j].conflictId))
      && (ops[k].ResolveConflict? && StaysOpen(t, ops, k, ops[k].conflictId) ==>
          Misstates(t, ops[k], ConflictResolutionEpochMismatch))
  {
    HintNamesFailedOperation(registry, proposer, openedSeq, t, p, k, ConflictResolutionEpochMismatch);
    forall j | 0 <= j < k
      ensures FindsItAsBefore(registry, proposer, openedSeq, t, p.operations, j, ConflictResolutionEpochMismatch) <==>
          (p.operations[j].ResolveConflict? ==> StaysOpen(t, p.operations, j, p.operations[j].conflictId))
    {
      FindsItOpen(registry, proposer, openedSeq, t, p.operations, j, k);
    }
    if p.operations[k].ResolveConflict? && StaysOpen(t, p.operations, k, p.operations[k].conflictId) {
      StopIsSeen(registry, proposer, openedSeq, t, p.operations, k);
    }
  }
}
