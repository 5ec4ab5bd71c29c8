/** What one kernel operation does to the tables, which events it records and which
    conflicts it opens, merges or reopens. */
module Reducers {
  import opened Wrappers
  import opened Domain
  import opened Rules
  import Continuity

  datatype Step = Step(tables: Tables, events: seq<Event>, touched: seq<Id>)

  // ----------------------------------------------------------------- sources

  function PutSource(t: Tables, source: Source): Result<Tables, Failure> {
    if source.revisionId in t.sources then
      if t.sources[source.revisionId].contentHash != source.contentHash
          then Err(Invalid(SourceRevisionImmutabilityViolation))
      else if ContentHash(t.sources[source.revisionId].content) != source.contentHash
          then Err(Invalid(SourceContentHashMismatch))
      else Ok(t)
    else if source.blob.None? then Err(Invalid(SourceContentUnavailable))
    else if ContentHash(source.blob.value) != source.contentHash then Err(Invalid(SourceContentHashMismatch))
    else Ok(t.(sources := t.sources[source.revisionId := SourceRow(source.contentHash, source, source.blob.value)]))
  }

  // ---------------------------------------------------------------- evidence

  function LinkError(t: Tables, link: EvidenceLink, claimId: Id): Option<Code> {
    if link.claimId != claimId then Some(EvidenceClaimMismatch)
    else if link.sourceRevisionId !in t.sources then Some(SourceRevisionNotFound)
    else
      var selector := SelectorError(t.sources[link.sourceRevisionId].content, link.selector);
      if selector.Some? then selector
      else if link.evidenceLinkId in t.evidence then Some(DuplicateObjectId)
      else None
  }

  function InsertLink(t: Tables, link: EvidenceLink, claimId: Id): Result<Tables, Failure> {
    var error := LinkError(t, link, claimId);
    if error.Some? then Err(Invalid(error.value))
    else Ok(t.(evidence := t.evidence[link.evidenceLinkId := EvidenceRow(claimId, link.sourceRevisionId, link)]))
  }

  function InsertLinks(t: Tables, links: seq<EvidenceLink>, claimId: Id): (r: Result<Tables, Failure>)
    ensures r.Ok? ==> r.value == t.(evidence := r.value.evidence)
    decreases |links|
  {
    if links == [] then Ok(t)
    else
      match InsertLinks(t, links[..|links| - 1], claimId)
      case Err(failure) => Err(failure)
      case Ok(before) => InsertLink(before, links[|links| - 1], claimId)
  }

  function AttachLink(registry: Registry, t: Tables, link: EvidenceLink): Result<Tables, Failure> {
    if link.claimId !in t.claims || t.claims[link.claimId].status != Active then Err(Stale(ClaimStatusMismatch))
    else
      var row := t.claims[link.claimId];
      if !Known(registry, row.proposition) then Err(Invalid(UnknownPredicate))
      else if !InterpretationsAllowed(registry.predicates[row.proposition.predicateKey], [link])
      then Err(Invalid(EvidenceInterpretationNotAllowed))
      else
        match InsertLink(t, link, link.claimId)
        case Err(failure) => Err(failure)
        case Ok(after) => Ok(after.(claims := t.claims[link.claimId := row.(version := row.version + 1)]))
  }

  // ------------------------------------------------------------------ claims

  function FreshClaimRow(claim: Claim): ClaimRow {
    ClaimRow(claim.propositionHash, claim.proposition, claim, Active, 1, None)
  }

  /** Validate and insert a claim with its initial evidence, before any conflict is opened. */
  function AdmitClaim(registry: Registry, t: Tables, claim: Claim,
      evidence: seq<EvidenceLink>): (r: Result<Tables, Failure>)
    ensures r.Ok? ==> claim.claimId !in t.claims && Known(registry, claim.proposition)
    ensures r.Ok? ==>
        r.value == t.(claims := t.claims[claim.claimId := FreshClaimRow(claim)], evidence := r.value.evidence)
  {
    var error := ClaimError(registry, claim, evidence);
    if error.Some? then Err(Invalid(error.value))
    else if claim.claimId in t.claims then Err(Invalid(DuplicateObjectId))
    else InsertLinks(t.(claims := t.claims[claim.claimId := FreshClaimRow(claim)]), evidence, claim.claimId)
  }

  // --------------------------------------------------------------- conflicts

  predicate Matches(row: ConflictRow, family: FamilyKey, kind: ConflictKind) {
    row.familyKey == family && row.kind == kind
  }

  predicate Holds(conflicts: map<Id, ConflictRow>, c: Id, family: FamilyKey, kind: ConflictKind,
      status: ConflictStatus) {
    c in conflicts && Matches(conflicts[c], family, kind) && conflicts[c].status == status
  }

  /** The row the kernel picks for a family and kind in a given status. */
  ghost function Find(conflicts: map<Id, ConflictRow>, family: FamilyKey, kind: ConflictKind,
      status: ConflictStatus): (found: Option<Id>)
    ensures found.Some? ==> Holds(conflicts, found.value, family, kind, status)
    ensures found.None? ==> forall c :: !Holds(conflicts, c, family, kind, status)
  {
    if exists c :: Holds(conflicts, c, family, kind, status) then
      var c :| Holds(conflicts, c, family, kind, status);
      Some(c)
    else None
  }

  /** The active claims of the incoming claim's family that contradict it in this way. */
  function Rivals(claims: map<Id, ClaimRow>, incoming: Claim, def: Predicate, ignored: set<Id>,
      kind: ConflictKind): set<Id> {
    set c | c in claims && c != incoming.claimId && c !in ignored && claims[c].status == Active
            && FamilyKeyUnder(claims[c].proposition, def) == FamilyKeyUnder(incoming.proposition, def)
            && KindOfConflict(incoming.proposition, claims[c].proposition, def) == Some(kind)
  }

  function Document(c: Id, row: ConflictRow): Conflict {
    Conflict(c, row.familyKey, row.episode, row.kind, row.members, row.memberDigest, row.status, row.openedSeq,
        row.resolution)
  }

  function MergedRow(row: ConflictRow, members: set<Id>): ConflictRow {
    row.(members := row.members + members, memberDigest := MemberDigest(row.members + members),
        version := row.version + 1)
  }

  function ReopenedRow(row: ConflictRow, members: set<Id>, openedSeq: nat): ConflictRow {
    row.(members := members, memberDigest := MemberDigest(members), status := Open, episode := row.episode + 1,
         version := row.version + 1, resolution := None, openedSeq := openedSeq)
  }

  function FirstRow(family: FamilyKey, kind: ConflictKind, members: set<Id>, openedSeq: nat): ConflictRow {
    ConflictRow(family, kind, MemberDigest(members), members, Open, 1, 1, None, openedSeq)
  }

  /** Merge into the open row, else reopen a resolved one, else insert a new one. */
  ghost function OpenRow(conflicts: map<Id, ConflictRow>, family: FamilyKey, kind: ConflictKind, members: set<Id>,
      openedSeq: nat):
    Result<(Id, ConflictRow), Failure>
  {
    match Find(conflicts, family, kind, Open)
    case Some(c) => Ok((c, MergedRow(conflicts[c], members)))
    case None =>
      match Find(conflicts, family, kind, Resolved)
      case Some(c) => Ok((c, ReopenedRow(conflicts[c], members, openedSeq)))
      case None =>
        if ConflictOf(members) in conflicts then Err(Invalid(DuplicateObjectId))
        else Ok((ConflictOf(members), FirstRow(family, kind, members, openedSeq)))
  }

  ghost function OpenKind(t: Tables, incoming: Claim, def: Predicate, ignored: set<Id>, kind: ConflictKind,
      openedSeq: nat):
    Result<Step, Failure>
  {
    var rivals := Rivals(t.claims, incoming, def, ignored, kind);
    if rivals == {} then Ok(Step(t, [], []))
    else
      match OpenRow(t.conflicts, FamilyKeyUnder(incoming.proposition, def), kind, rivals + {incoming.claimId},
          openedSeq)
      case Err(failure) => Err(failure)
      case Ok((c, row)) => Ok(Step(t.(conflicts := t.conflicts[c := row]), [ConflictOpened(Document(c, row))], [c]))
  }

  ghost function OpenConflicts(t: Tables, incoming: Claim, def: Predicate, ignored: set<Id>,
      openedSeq: nat): Result<Step, Failure> {
    match OpenKind(t, incoming, def, ignored, ExclusiveValue, openedSeq)
    case Err(failure) => Err(failure)
    case Ok(first) =>
      match OpenKind(first.tables, incoming, def, ignored, PolarityClash, openedSeq)
      case Err(failure) => Err(failure)
      case Ok(second) => Ok(Step(second.tables, first.events + second.events, first.touched + second.touched))
  }

  ghost function AssertNewClaim(registry: Registry, t: Tables, claim: Claim, evidence: seq<EvidenceLink>,
      ignored: set<Id>, openedSeq: nat):
    Result<Step, Failure>
  {
    match AdmitClaim(registry, t, claim, evidence)
    case Err(failure) => Err(failure)
    case Ok(admitted) =>
      match OpenConflicts(admitted, claim, registry.predicates[claim.proposition.predicateKey], ignored, openedSeq)
      case Err(failure) => Err(failure)
      case Ok(step) => Ok(Step(step.tables, [ClaimAsserted(claim, evidence)] + step.events, step.touched))
  }

  function SupersededRow(row: ClaimRow, replacement: Id): ClaimRow {
    row.(status := Superseded, version := row.version + 1, supersededBy := Some(replacement))
  }

  ghost function ReplaceClaim(registry: Registry, t: Tables, target: Id, replacement: Claim,
      evidence: seq<EvidenceLink>, rationale: string, openedSeq: nat): Result<Step, Failure>
  {
    if target !in t.claims || t.claims[target].status != Active then Err(Stale(ClaimStatusMismatch))
    else
      match AssertNewClaim(registry, t, replacement, evidence, {target}, openedSeq)
      case Err(failure) => Err(failure)
      case Ok(step) =>
        if target !in step.tables.claims then Err(Stale(ClaimStatusMismatch))
        else Ok(Step(
          step.tables.(claims := step.tables.claims[target :=
              SupersededRow(step.tables.claims[target], replacement.claimId)]),
          step.events + [ClaimSuperseded(target, replacement.claimId, rationale)],
          step.touched))
  }

  predicate EvidenceOf(t: Tables, links: seq<Id>, owners: set<Id>) {
    forall link :: link in links ==> link in t.evidence && t.evidence[link].claimId in owners
  }

  function RetractedRow(row: ClaimRow): ClaimRow {
    row.(status := Retracted, version := row.version + 1)
  }

  function WithdrawClaim(t: Tables, proposer: Actor, target: Id, links: seq<Id>): Result<Tables, Failure> {
    if target !in t.claims || t.claims[target].status != Active then Err(Stale(ClaimStatusMismatch))
    else if !Authorized(proposer, t.claims[target].document.assertedBy) then Err(Invalid(ActorNotAuthorized))
    else if !EvidenceOf(t, links, {target}) then Err(Invalid(EvidenceReferenceNotFound))
    else Ok(t.(claims := t.claims[target := RetractedRow(t.claims[target])]))
  }

  function ResolvedRow(row: ConflictRow, resolution: Resolution): ConflictRow {
    row.(status := Resolved, version := row.version + 1, resolution := Some(resolution))
  }

  function SettleConflict(t: Tables, proposer: Actor, c: Id, expected: MemberDigest,
      resolution: Resolution): Result<Tables, Failure> {
    if c !in t.conflicts || t.conflicts[c].status != Open then Err(Stale(ConflictStatusMismatch))
    else
      var row := t.conflicts[c];
      if row.memberDigest != expected then Err(Stale(ConflictMemberDigestMismatch))
      else if resolution.resolutionEpoch != row.episode then Err(Stale(ConflictResolutionEpochMismatch))
      else if !Authorized(proposer, resolution.resolver) then Err(Invalid(ActorNotAuthorized))
      else if resolution.selected * resolution.rejected != {}
          || resolution.selected + resolution.rejected != row.members
      then Err(Invalid(InvalidConflictResolution))
      else if !EvidenceOf(t, resolution.evidenceLinkIds, row.members) then Err(Invalid(EvidenceReferenceNotFound))
      else Ok(t.(conflicts := t.conflicts[c := ResolvedRow(row, resolution)]))
  }

  // -------------------------------------------------------------- operations

  function Single(r: Result<Tables, Failure>, event: Event): Result<Step, Failure> {
    match r
    case Err(failure) => Err(failure)
    case Ok(tables) => Ok(Step(tables, [event], []))
  }

  ghost function ApplyOperation(registry: Registry, proposer: Actor, openedSeq: nat, t: Tables,
      op: Operation): Result<Step, Failure> {
    if Continuity.IsContinuityOperation(op) then
      match Continuity.Apply(t, op)
      case Err(failure) => Err(failure)
      case Ok(change) => Ok(Step(change.tables, [change.event], []))
    else
      match op
      case RegisterSource(source) => Single(PutSource(t, source), SourceRevisionRegistered(source))
      case AssertClaim(claim, evidence) => AssertNewClaim(registry, t, claim, evidence, {}, openedSeq)
      case AttachEvidence(link) => Single(AttachLink(registry, t, link), EvidenceAttached(link))
      case SupersedeClaim(target, replacement, evidence, rationale) =>
        ReplaceClaim(registry, t, target, replacement, evidence, rationale, openedSeq)
      case RetractClaim(target, links, policy, rationale) =>
        Single(WithdrawClaim(t, proposer, target, links), ClaimRetracted(target, proposer, policy, rationale))
      case ResolveConflict(c, expected, resolution) =>
        Single(SettleConflict(t, proposer, c, expected, resolution), ConflictResolved(c, resolution))
      case _ => Err(Invalid(UnsupportedOperationCode))
  }

  ghost function ApplyOperations(registry: Registry, proposer: Actor, openedSeq: nat, t: Tables,
      ops: seq<Operation>): Result<Step, Failure>
    decreases |ops|
  {
    if ops == [] then Ok(Step(t, [], []))
    else
      match ApplyOperations(registry, proposer, openedSeq, t, ops[..|ops| - 1])
      case Err(failure) => Err(failure)
      case Ok(before) =>
        match ApplyOperation(registry, proposer, openedSeq, before.tables, ops[|ops| - 1])
        case Err(failure) => Err(failure)
        case Ok(step) => Ok(Step(step.tables, before.events + step.events, before.touched + step.touched))
  }
}
