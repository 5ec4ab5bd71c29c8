/** What a proposal must satisfy before anything is applied: mandatory reads, optimistic
    reads and guards, and typed references. */
module Preconditions {
  import opened Wrappers
  import opened Domain
  import opened Rules
  import Prediction

  // ----------------------------------------------------- versions and digests

  /** The version of an aggregate; absent aggregates have version 0. */
  function VersionOf(t: Tables, kind: RecordType, id: Id): nat {
    match kind
    case SourceRevision => if id in t.sources then 1 else 0
    case ClaimRecord => if id in t.claims then t.claims[id].version else 0
    case ConflictRecord => if id in t.conflicts then t.conflicts[id].version else 0
    case DecisionRecord => if id in t.decisions then t.decisions[id].version else 0
    case QuestionRecord => if id in t.questions then t.questions[id].version else 0
    case WorkItemRecord => if id in t.workItems then t.workItems[id].version else 0
  }

  predicate Exists(t: Tables, kind: RecordType, id: Id) {
    match kind
    case SourceRevision => id in t.sources
    case ClaimRecord => id in t.claims
    case ConflictRecord => id in t.conflicts
    case DecisionRecord => id in t.decisions
    case QuestionRecord => id in t.questions
    case WorkItemRecord => id in t.workItems
  }

  function ActiveFamily(registry: Registry, claims: map<Id, ClaimRow>,
      family: FamilyKey): map<Id, (PropositionHash, nat)> {
    map c | c in claims && claims[c].status == Active && Known(registry, claims[c].proposition)
            && OwnFamily(registry, claims[c].proposition) == family
      :: (claims[c].propositionHash, claims[c].version)
  }

  // ------------------------------------------------------------ mandatory reads

  datatype Target = Target(kind: RecordType, id: Id)

  /** The aggregate a destructive operation must pin. */
  function RequiredRead(op: Operation): Option<Target> {
    match op
    case SupersedeClaim(target, _, _, _) => Some(Target(ClaimRecord, target))
    case RetractClaim(target, _, _, _) => Some(Target(ClaimRecord, target))
    case ResolveConflict(c, _, _) => Some(Target(ConflictRecord, c))
    case SupersedeDecision(target, _, _, _) => Some(Target(DecisionRecord, target))
    case AnswerQuestion(target, _) => Some(Target(QuestionRecord, target))
    case DropQuestion(target, _) => Some(Target(QuestionRecord, target))
    case UpdateWorkItem(target, _, _, _, _, _) => Some(Target(WorkItemRecord, target))
    case _ => None
  }

  function MissingReadCode(kind: RecordType): Code {
    match kind
    case ConflictRecord => MissingRequiredConflictRead
    case DecisionRecord => MissingRequiredDecisionRead
    case QuestionRecord => MissingRequiredQuestionRead
    case WorkItemRecord => MissingRequiredWorkItemRead
    case _ => MissingRequiredClaimRead
  }

  predicate Pins(readSet: seq<Read>, target: Target) {
    exists i ::
        0 <= i < |readSet| && readSet[i].AggregateRead? && readSet[i].aggregateType == target.kind
        && readSet[i].aggregateId == target.id
  }

  function MissingRead(readSet: seq<Read>, ops: seq<Operation>): (missing: Option<Code>)
    ensures missing.None? ==>
        forall i :: 0 <= i < |ops| && RequiredRead(ops[i]).Some? ==> Pins(readSet, RequiredRead(ops[i]).value)
    decreases |ops|
  {
    if ops == [] then None
    else
      var before := MissingRead(readSet, ops[..|ops| - 1]);
      var required := RequiredRead(ops[|ops| - 1]);
      if before.Some? then before
      else if required.Some? && !Pins(readSet, required.value) then Some(MissingReadCode(required.value.kind))
      else None
  }

  // ------------------------------------------------------------ reads and guards

  function VersionMismatch(kind: RecordType): Code {
    match kind
    case SourceRevision => SourceVersionMismatch
    case ClaimRecord => ClaimVersionMismatch
    case ConflictRecord => ConflictVersionMismatch
    case DecisionRecord => DecisionVersionMismatch
    case QuestionRecord => QuestionVersionMismatch
    case WorkItemRecord => WorkItemVersionMismatch
  }

  /** A missing aggregate fails every version check, except that an unregistered source
      revision passes a read of version 0. */
  predicate HasVersion(t: Tables, kind: RecordType, id: Id, version: nat) {
    (kind == SourceRevision || Exists(t, kind, id)) && VersionOf(t, kind, id) == version
  }

  function ReadError(registry: Registry, t: Tables, read: Read): Option<Code> {
    match read
    case CollectionRead(family, expected) =>
      if ActiveSetDigest(ActiveFamily(registry, t.claims, family)) != expected then Some(ActiveSetDigestMismatch)
          else None
    case AggregateRead(kind, id, version) =>
      if !HasVersion(t, kind, id, version) then Some(VersionMismatch(kind)) else None
  }

  function GuardError(registry: Registry, t: Tables, guard: Guard): Option<Code> {
    match guard
    case ClaimStatusEq(id, status) =>
        if id in t.claims && t.claims[id].status == status then None else Some(ClaimStatusMismatch)
    case ClaimVersionEq(id, version) =>
        if HasVersion(t, ClaimRecord, id, version) then None else Some(ClaimVersionMismatch)
    case ConflictStatusEq(id, status) =>
        if id in t.conflicts && t.conflicts[id].status == status then None else Some(ConflictStatusMismatch)
    case ConflictMemberDigestEq(id, digest) =>
      if id in t.conflicts && t.conflicts[id].memberDigest == digest then None else Some(ConflictMemberDigestMismatch)
    case ActiveSetDigestEq(family, expected) =>
      if ActiveSetDigest(ActiveFamily(registry, t.claims, family)) == expected then None
          else Some(ActiveSetDigestMismatch)
    case SourceHashEq(id, hash) =>
        if id in t.sources && t.sources[id].contentHash == hash then None else Some(SourceHashMismatch)
    case NoActiveClaim(family) =>
        if ActiveFamily(registry, t.claims, family) == map[] then None else Some(ActiveClaimExists)
    case DecisionStatusEq(id, status) =>
        if id in t.decisions && t.decisions[id].status == status then None else Some(DecisionStatusMismatch)
    case DecisionVersionEq(id, version) =>
        if HasVersion(t, DecisionRecord, id, version) then None else Some(DecisionVersionMismatch)
    case QuestionStatusEq(id, status) =>
        if id in t.questions && t.questions[id].status == status then None else Some(QuestionStatusMismatch)
    case QuestionVersionEq(id, version) =>
        if HasVersion(t, QuestionRecord, id, version) then None else Some(QuestionVersionMismatch)
    case WorkItemStatusEq(id, status) =>
        if id in t.workItems && t.workItems[id].status == status then None else Some(WorkItemStatusMismatch)
    case WorkItemVersionEq(id, version) =>
        if HasVersion(t, WorkItemRecord, id, version) then None else Some(WorkItemVersionMismatch)
  }

  function ReadsError(registry: Registry, t: Tables, readSet: seq<Read>): (error: Option<Code>)
    ensures error.None? <==> forall i :: 0 <= i < |readSet| ==> ReadError(registry, t, readSet[i]).None?
    decreases |readSet|
  {
    if readSet == [] then None
    else
      var before := ReadsError(registry, t, readSet[..|readSet| - 1]);
      if before.Some? then before else ReadError(registry, t, readSet[|readSet| - 1])
  }

  function GuardsError(registry: Registry, t: Tables, guards: seq<Guard>): (error: Option<Code>)
    ensures error.None? <==> forall i :: 0 <= i < |guards| ==> GuardError(registry, t, guards[i]).None?
    decreases |guards|
  {
    if guards == [] then None
    else
      var before := GuardsError(registry, t, guards[..|guards| - 1]);
      if before.Some? then before else GuardError(registry, t, guards[|guards| - 1])
  }

  function ReadsAndGuardsError(registry: Registry, t: Tables, p: Proposal): Option<Code> {
    var stale := ReadsError(registry, t, p.readSet);
    if stale.Some? then stale else GuardsError(registry, t, p.guards)
  }

  // ------------------------------------------------------------------ references

  /** The record an operation introduces into the proposal's own namespace. */
  function Introduced(op: Operation): Option<RecordRef> {
    match op
    case RegisterSource(source) => Some(RecordRef(SourceRevision, source.revisionId))
    case AssertClaim(claim, _) => Some(RecordRef(ClaimRecord, claim.claimId))
    case SupersedeClaim(_, replacement, _, _) => Some(RecordRef(ClaimRecord, replacement.claimId))
    case RecordDecision(decision) => Some(RecordRef(DecisionRecord, decision.decisionId))
    case SupersedeDecision(_, _, replacement, _) => Some(RecordRef(DecisionRecord, replacement.decisionId))
    case OpenQuestion(question) => Some(RecordRef(QuestionRecord, question.questionId))
    case CreateWorkItem(item) => Some(RecordRef(WorkItemRecord, item.workItemId))
    case _ => None
  }

  ghost predicate InNamespace(registry: Registry, t: Tables, ops: seq<Operation>, ref: RecordRef) {
    || Exists(t, ref.recordType, ref.recordId)
    || (exists i :: 0 <= i < |ops| && Introduced(ops[i]) == Some(ref))
    || (ref.recordType == ConflictRecord && ref.recordId in Prediction.Predicted(registry, t, ops))
  }

  ghost function ReferenceError(registry: Registry, t: Tables, ops: seq<Operation>, ref: RecordRef): Option<Code> {
    if InNamespace(registry, t, ops, ref) then None
    else if exists other: RecordType ::
        InNamespace(registry, t, ops, RecordRef(other, ref.recordId)) then Some(ReferenceTypeMismatch)
    else Some(ReferenceNotFound)
  }

  function RefsTo(kind: RecordType, ids: seq<Id>): seq<RecordRef> {
    seq(|ids|, i requires 0 <= i < |ids| => RecordRef(kind, ids[i]))
  }

  function DecisionReferences(decision: Decision): seq<RecordRef> {
    RefsTo(SourceRevision, decision.relatedSources) + RefsTo(ClaimRecord, decision.relatedClaims)
  }

  function References(op: Operation): seq<RecordRef> {
    match op
    case RecordDecision(decision) => DecisionReferences(decision)
    case SupersedeDecision(_, _, replacement, _) => DecisionReferences(replacement)
    case OpenQuestion(question) => question.relatedObjects
    case AnswerQuestion(_, answer) => [answer.reference]
    case CreateWorkItem(item) => item.relatedObjects
    case _ => []
  }

  ghost function RefsError(registry: Registry, t: Tables, ops: seq<Operation>,
      refs: seq<RecordRef>): (error: Option<Code>)
    ensures error.None? <==> forall i :: 0 <= i < |refs| ==> InNamespace(registry, t, ops, refs[i])
    decreases |refs|
  {
    if refs == [] then None
    else
      var before := RefsError(registry, t, ops, refs[..|refs| - 1]);
      if before.Some? then before else ReferenceError(registry, t, ops, refs[|refs| - 1])
  }

  /** References are resolved against the namespace of the whole proposal `ops`. */
  ghost function OperationsRefsError(registry: Registry, t: Tables, ops: seq<Operation>, n: nat): Option<Code>
    requires n <= |ops|
  {
    if n == 0 then None
    else
      var before := OperationsRefsError(registry, t, ops, n - 1);
      if before.Some? then before else RefsError(registry, t, ops, References(ops[n - 1]))
  }

  ghost function ReferencesError(registry: Registry, t: Tables, ops: seq<Operation>): Option<Code> {
    OperationsRefsError(registry, t, ops, |ops|)
  }
}
