/** Replay refines commit: the events an operation records rebuild, from the same tables,
    exactly the tables the operation produced. */
module Refinement {
  import opened Wrappers
  import opened Domain
  import opened Rules
  import opened Reducers
  import opened Replay
  import Continuity

  /** An operation succeeded with `step` from tables `t`: the step is sound and replays. */
  ghost predicate Refines(registry: Registry, t: Tables, step: Step) {
    && Sound(registry, step.tables)
    && Extends(t.claims, step.tables.claims)
    && Replay.Replay(registry, t, step.events) == Ok(step.tables)
  }

  lemma SecondKindIsFresh(registry: Registry, t: Tables, incoming: Claim, ignored: set<Id>, openedSeq: nat)
    requires FamiliesNamePredicate(registry) && Sound(registry, t)
    requires incoming.claimId in t.claims && t.claims[incoming.claimId].proposition == incoming.proposition
    requires forall c :: c in t.conflicts && c.ConflictOf? ==> incoming.claimId !in c.firstMembers
    ensures ConflictOf(MembersOf(registry, t, incoming, ignored, ExclusiveValue)) !in t.conflicts
    ensures
      var r := OpenKind(t, incoming, registry.predicates[incoming.proposition.predicateKey], ignored, ExclusiveValue,
          openedSeq);
      r.Ok? && r.value.tables.claims == t.claims
      && ConflictOf(MembersOf(registry, r.value.tables, incoming, ignored, PolarityClash)) !in r.value.tables.conflicts
  {
    var first := MembersOf(registry, t, incoming, ignored, ExclusiveValue);
    var second := MembersOf(registry, t, incoming, ignored, PolarityClash);
    assert incoming.claimId in ConflictOf(first).firstMembers && incoming.claimId in ConflictOf(second).firstMembers;
    OpenKindSound(registry, t, incoming, ignored, ExclusiveValue, openedSeq);
    var def := registry.predicates[incoming.proposition.predicateKey];
    var rivals := Rivals(t.claims, incoming, def, ignored, ExclusiveValue);
    if rivals != {} {
      var c :| c in rivals;
      assert c in first && c !in second;
    }
  }

  lemma OpenConflictsRefines(registry: Registry, t: Tables, incoming: Claim, ignored: set<Id>, openedSeq: nat)
    requires FamiliesNamePredicate(registry) && Sound(registry, t)
    requires incoming.claimId in t.claims && t.claims[incoming.claimId].proposition == incoming.proposition
    requires forall c :: c in t.conflicts && c.ConflictOf? ==> incoming.claimId !in c.firstMembers
    ensures
      var r := OpenConflicts(t, incoming, registry.predicates[incoming.proposition.predicateKey], ignored, openedSeq);
      && r.Ok? && Refines(registry, t, r.value)
      && r.value.tables == t.(conflicts := r.value.tables.conflicts)
  {
    var def := registry.predicates[incoming.proposition.predicateKey];
    SecondKindIsFresh(registry, t, incoming, ignored, openedSeq);
    OpenKindSound(registry, t, incoming, ignored, ExclusiveValue, openedSeq);
    var first := OpenKind(t, incoming, def, ignored, ExclusiveValue, openedSeq).value;
    OpenKindSound(registry, first.tables, incoming, ignored, PolarityClash, openedSeq);
    var second := OpenKind(first.tables, incoming, def, ignored, PolarityClash, openedSeq).value;
    ReplayAppend(registry, t, first.events, second.events);
  }

  lemma AdmitClaimSound(registry: Registry, t: Tables, claim: Claim, evidence: seq<EvidenceLink>)
    requires Sound(registry, t) && AdmitClaim(registry, t, claim, evidence).Ok?
    ensures
      var after := AdmitClaim(registry, t, claim, evidence).value;
      && Sound(registry, after) && Extends(t.claims, after.claims)
      && forall c :: c in after.conflicts && c.ConflictOf? ==> claim.claimId !in c.firstMembers
  {
    var after := AdmitClaim(registry, t, claim, evidence).value;
    ConflictsStaySound(registry, t, after);
    forall c | c in after.conflicts && c.ConflictOf?
      ensures claim.claimId !in c.firstMembers
    {
      assert RowSound(registry, t.claims, c, t.conflicts[c]);
    }
  }

  /** The two stages of an assertion: the claim is admitted, then conflicts are opened. */
  lemma AssertionStep(registry: Registry, t: Tables, claim: Claim, evidence: seq<EvidenceLink>, ignored: set<Id>,
      openedSeq: nat)
    returns (admitted: Tables, conflicts: Step)
    requires AssertNewClaim(registry, t, claim, evidence, ignored, openedSeq).Ok?
    ensures AdmitClaim(registry, t, claim, evidence) == Ok(admitted)
    ensures claim.claimId !in t.claims && Known(registry, claim.proposition)
    ensures admitted.claims == t.claims[claim.claimId := FreshClaimRow(claim)] && admitted.conflicts == t.conflicts
    ensures OpenConflicts(admitted, claim, registry.predicates[claim.proposition.predicateKey], ignored,
        openedSeq) == Ok(conflicts)
    ensures AssertNewClaim(registry, t, claim, evidence, ignored, openedSeq).value
         == Step(conflicts.tables, [ClaimAsserted(claim, evidence)] + conflicts.events, conflicts.touched)
  {
    admitted := AdmitClaim(registry, t, claim, evidence).value;
    conflicts := OpenConflicts(admitted, claim, registry.predicates[claim.proposition.predicateKey], ignored,
        openedSeq).value;
  }

  /** The assertion a supersession starts with. */
  lemma ReplacementStep(registry: Registry, t: Tables, target: Id, replacement: Claim, evidence: seq<EvidenceLink>,
      rationale: string, openedSeq: nat)
    returns (asserted: Step)
    requires ReplaceClaim(registry, t, target, replacement, evidence, rationale, openedSeq).Ok?
    ensures AssertNewClaim(registry, t, replacement, evidence, {target}, openedSeq) == Ok(asserted)
    ensures target in t.claims && t.claims[target].status == Active && target in asserted.tables.claims
    ensures ReplaceClaim(registry, t, target, replacement, evidence, rationale, openedSeq).value == Step(
      asserted.tables.(claims :=
          asserted.tables.claims[target := SupersededRow(asserted.tables.claims[target], replacement.claimId)]),
      asserted.events + [ClaimSuperseded(target, replacement.claimId, rationale)],
      asserted.touched)
  {
    asserted := AssertNewClaim(registry, t, replacement, evidence, {target}, openedSeq).value;
  }

  lemma AssertNewClaimRefines(registry: Registry, t: Tables, claim: Claim, evidence: seq<EvidenceLink>,
      ignored: set<Id>, openedSeq: nat)
    requires FamiliesNamePredicate(registry) && Sound(registry, t)
    requires AssertNewClaim(registry, t, claim, evidence, ignored, openedSeq).Ok?
    ensures
      var step := AssertNewClaim(registry, t, claim, evidence, ignored, openedSeq).value;
      && Refines(registry, t, step)
      && step.tables.claims == t.claims[claim.claimId := FreshClaimRow(claim)] && claim.claimId !in t.claims
  {
    var admitted, conflicts := AssertionStep(registry, t, claim, evidence, ignored, openedSeq);
    AdmitClaimSound(registry, t, claim, evidence);
    OpenConflictsRefines(registry, admitted, claim, ignored, openedSeq);
    ReplayOne(registry, t, ClaimAsserted(claim, evidence));
    ReplayAppend(registry, t, [ClaimAsserted(claim, evidence)], conflicts.events);
  }

  /** Opening the conflicts of an admitted claim never fails. */
  lemma AdmittedIsAsserted(registry: Registry, t: Tables, claim: Claim, evidence: seq<EvidenceLink>, ignored: set<Id>,
      openedSeq: nat)
    requires FamiliesNamePredicate(registry) && Sound(registry, t)
    ensures AssertNewClaim(registry, t, claim, evidence, ignored, openedSeq).Ok? <==>
        AdmitClaim(registry, t, claim, evidence).Ok?
  {
    if AdmitClaim(registry, t, claim, evidence).Ok? {
      AdmitClaimSound(registry, t, claim, evidence);
      OpenConflictsRefines(registry, AdmitClaim(registry, t, claim, evidence).value, claim, ignored, openedSeq);
    }
  }

  /** A supersession succeeds whenever its assertion does. */
  lemma ReplacementFrom(registry: Registry, t: Tables, target: Id, replacement: Claim, evidence: seq<EvidenceLink>,
      rationale: string, openedSeq: nat, asserted: Step)
    requires FamiliesNamePredicate(registry) && Sound(registry, t)
    requires target in t.claims && t.claims[target].status == Active
    requires AssertNewClaim(registry, t, replacement, evidence, {target}, openedSeq) == Ok(asserted)
    ensures target in asserted.tables.claims
    ensures ReplaceClaim(registry, t, target, replacement, evidence, rationale, openedSeq) == Ok(Step(
      asserted.tables.(claims :=
          asserted.tables.claims[target := SupersededRow(asserted.tables.claims[target], replacement.claimId)]),
      asserted.events + [ClaimSuperseded(target, replacement.claimId, rationale)],
      asserted.touched))
  {
    AssertNewClaimRefines(registry, t, replacement, evidence, {target}, openedSeq);
  }

  lemma ClaimRowChangeSound(registry: Registry, t: Tables, c: Id, row: ClaimRow)
    requires Sound(registry, t) && c in t.claims
    requires row.proposition == t.claims[c].proposition && row.document == t.claims[c].document
    requires row.propositionHash == t.claims[c].propositionHash
    requires row.supersededBy.Some? <==> row.status == Superseded
    ensures Sound(registry, t.(claims := t.claims[c := row]))
    ensures Extends(t.claims, t.claims[c := row])
  {
    ConflictsStaySound(registry, t, t.(claims := t.claims[c := row]));
  }

  lemma ReplaceClaimRefines(registry: Registry, t: Tables, target: Id, replacement: Claim, evidence: seq<EvidenceLink>,
      rationale: string, openedSeq: nat)
    requires FamiliesNamePredicate(registry) && Sound(registry, t)
    requires ReplaceClaim(registry, t, target, replacement, evidence, rationale, openedSeq).Ok?
    ensures Refines(registry, t, ReplaceClaim(registry, t, target, replacement, evidence, rationale, openedSeq).value)
  {
    AssertNewClaimRefines(registry, t, replacement, evidence, {target}, openedSeq);
    var step := ReplacementStep(registry, t, target, replacement, evidence, rationale, openedSeq);
    SupersessionRefines(registry, t, step, target, replacement.claimId, rationale);
  }

  /** Superseding a claim that is active after a step. */
  lemma SupersessionRefines(registry: Registry, t: Tables, step: Step, target: Id, replacement: Id, rationale: string)
    requires Refines(registry, t, step) && target in step.tables.claims && step.tables.claims[target].status == Active
    ensures
      var after := step.tables.(claims :=
          step.tables.claims[target := SupersededRow(step.tables.claims[target], replacement)]);
      Refines(registry, t, Step(after, step.events + [ClaimSuperseded(target, replacement, rationale)], step.touched))
  {
    ClaimRowChangeSound(registry, step.tables, target, SupersededRow(step.tables.claims[target], replacement));
    var superseded := ClaimSuperseded(target, replacement, rationale);
    ReplayAppend(registry, t, step.events, [superseded]);
    ReplayOne(registry, step.tables, superseded);
  }

  lemma AttachLinkRefines(registry: Registry, t: Tables, link: EvidenceLink)
    requires Sound(registry, t) && AttachLink(registry, t, link).Ok?
    ensures Refines(registry, t, Single(AttachLink(registry, t, link), EvidenceAttached(link)).value)
  {
    var row := t.claims[link.claimId];
    var after := AttachLink(registry, t, link).value;
    ReplayOne(registry, t, EvidenceAttached(link));
    assert after.claims == t.claims[link.claimId := row.(version := row.version + 1)];
    ConflictsStaySound(registry, t, after);
  }

  lemma WithdrawClaimRefines(registry: Registry, proposer: Actor, t: Tables, target: Id, links: seq<Id>, e: Event)
    requires Sound(registry, t) && WithdrawClaim(t, proposer, target, links).Ok?
    requires e.ClaimRetracted? && e.retractedClaim == target
    ensures Refines(registry, t, Single(WithdrawClaim(t, proposer, target, links), e).value)
  {
    ReplayOne(registry, t, e);
    ClaimRowChangeSound(registry, t, target, RetractedRow(t.claims[target]));
  }

  lemma SettleConflictRefines(registry: Registry, proposer: Actor, t: Tables, c: Id, expected: MemberDigest,
      resolution: Resolution)
    requires Sound(registry, t) && SettleConflict(t, proposer, c, expected, resolution).Ok?
    ensures Refines(registry, t,
        Single(SettleConflict(t, proposer, c, expected, resolution), ConflictResolved(c, resolution)).value)
  {
    ReplayOne(registry, t, ConflictResolved(c, resolution));
  }

  lemma ContinuityRefines(registry: Registry, t: Tables, op: Operation)
    requires Sound(registry, t) && Continuity.IsContinuityOperation(op) && Continuity.Apply(t, op).Ok?
    ensures
      var change := Continuity.Apply(t, op).value;
      Refines(registry, t, Step(change.tables, [change.event], []))
  {
    var change := Continuity.Apply(t, op).value;
    ReplayOne(registry, t, change.event);
    ConflictsStaySound(registry, t, change.tables);
  }

  lemma OperationRefines(registry: Registry, proposer: Actor, openedSeq: nat, t: Tables, op: Operation)
    requires FamiliesNamePredicate(registry) && Sound(registry, t)
    requires ApplyOperation(registry, proposer, openedSeq, t, op).Ok?
    ensures Refines(registry, t, ApplyOperation(registry, proposer, openedSeq, t, op).value)
  {
    if Continuity.IsContinuityOperation(op) {
      ContinuityRefines(registry, t, op);
    } else {
      match op
      case RegisterSource(source) =>
      case AssertClaim(claim, evidence) => AssertNewClaimRefines(registry, t, claim, evidence, {}, openedSeq);
      case AttachEvidence(link) => AttachLinkRefines(registry, t, link);
      case SupersedeClaim(target, replacement, evidence, rationale) =>
        ReplaceClaimRefines(registry, t, target, replacement, evidence, rationale, openedSeq);
      case RetractClaim(target, links, policy, rationale) =>
        WithdrawClaimRefines(registry, proposer, t, target, links, ClaimRetracted(target, proposer, policy, rationale));
      case ResolveConflict(c, expected, resolution) =>
          SettleConflictRefines(registry, proposer, t, c, expected, resolution);
      case _ =>
    }
  }

  /** For every list of operations that applies, replaying its events rebuilds its tables. */
  lemma {:induction false} OperationsRefine(registry: Registry, proposer: Actor, openedSeq: nat, t: Tables,
      ops: seq<Operation>)
    requires FamiliesNamePredicate(registry) && Sound(registry, t)
    requires ApplyOperations(registry, proposer, openedSeq, t, ops).Ok?
    ensures Refines(registry, t, ApplyOperations(registry, proposer, openedSeq, t, ops).value)
    decreases |ops|
  {
    if ops != [] {
      var n := |ops| - 1;
      OperationsRefine(registry, proposer, openedSeq, t, ops[..n]);
      var before := ApplyOperations(registry, proposer, openedSeq, t, ops[..n]).value;
      OperationRefines(registry, proposer, openedSeq, before.tables, ops[n]);
      var step := ApplyOperation(registry, proposer, openedSeq, before.tables, ops[n]).value;
      ReplayAppend(registry, t, before.events, step.events);
    }
  }
}
