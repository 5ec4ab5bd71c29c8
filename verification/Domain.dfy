/** Records, operations and events of the kernel.

    Every digest is the digested value under a constructor of its own: an ideal,
    collision-free hash. Sorted lists of identifiers are the sets they enumerate.
    Points in time are integers. */
module Domain {
  import opened Wrappers
  import opened Utf8

  type Time = int

  /** Record identifiers. A conflict opened by the kernel is named by the digest of its
      first members; every other identifier is a text chosen by a client. */
  datatype Id = Name(text: string) | ConflictOf(firstMembers: set<Id>)

  datatype ActorType = Agent | Human | Service
  datatype Actor = Actor(actorId: string, actorType: ActorType)

  // ---------------------------------------------------------------- sources and claims

  datatype ContentHash = ContentHash(content: seq<byte>)

  /** `blob` is the content the blob reference carries, when it carries any. */
  datatype Source = Source(revisionId: Id, contentHash: ContentHash, blob: Option<seq<byte>>, details: string)

  datatype EntityRef = EntityRef(entityId: string, entityType: string)
  datatype ObjectValue =
    | EntityValue(entity: EntityRef)
    | EnumValue(symbol: string)
    | ScalarValue(kind: string, text: string)
  datatype Polarity = Positive | Negative
  datatype Scope = Scope(component: Option<string>, environment: Option<string>, region: Option<string>,
      tenant: Option<string>)
  datatype ValidTime = ValidTime(from: Option<Time>, to: Option<Time>)
  datatype Proposition = Proposition(
    subject: EntityRef, predicateKey: string, objectValue: ObjectValue,
    polarity: Polarity, scope: Scope, validTime: ValidTime)
  datatype PropositionHash = PropositionHash(proposition: Proposition)

  datatype Claim = Claim(claimId: Id, propositionHash: PropositionHash, proposition: Proposition, assertedBy: Actor,
      details: string)

  datatype Selector = Selector(startByte: nat, endByte: nat, excerpt: string, excerptHash: ContentHash)
  datatype Interpretation = Direct | Reported | Inferred
  datatype EvidenceLink = EvidenceLink(
    evidenceLinkId: Id, claimId: Id, sourceRevisionId: Id, selector: Selector,
    interpretation: Interpretation, details: string)

  // ------------------------------------------------------------------------- conflicts

  datatype FamilyValue = Missing | Text(text: string) | Whole(objectValue: ObjectValue) | Sign(polarity: Polarity)
      | At(time: Time)
  datatype FamilyKey = FamilyKey(values: seq<FamilyValue>)
  datatype MemberDigest = MemberDigest(members: set<Id>)
  datatype ActiveSetDigest = ActiveSetDigest(members: map<Id, (PropositionHash, nat)>)

  /** In the order in which the kernel opens them. */
  datatype ConflictKind = ExclusiveValue | PolarityClash
  datatype ConflictStatus = Open | Resolved
  datatype Resolution = Resolution(
    resolver: Actor, selected: set<Id>, rejected: set<Id>, evidenceLinkIds: seq<Id>,
    resolutionEpoch: nat, details: string)
  datatype Conflict = Conflict(
    conflictId: Id, familyKey: FamilyKey, episode: nat, kind: ConflictKind, members: set<Id>,
    memberDigest: MemberDigest, status: ConflictStatus, openedSeq: nat, resolution: Option<Resolution>)

  // ------------------------------------------------------------------------ continuity

  datatype RecordType = SourceRevision | ClaimRecord | ConflictRecord | DecisionRecord | QuestionRecord | WorkItemRecord
  datatype RecordRef = RecordRef(recordType: RecordType, recordId: Id)

  datatype DecisionStatus = DecisionActive | DecisionSuperseded | DecisionReversed | DecisionOther(name: string)
  datatype Decision = Decision(
    decisionId: Id, status: DecisionStatus, version: int, replacedBy: Option<Id>,
    relatedSources: seq<Id>, relatedClaims: seq<Id>, details: string)

  datatype QuestionStatus = QuestionOpen | QuestionAnswered | QuestionDropped | QuestionOther(name: string)
  datatype Answer = Answer(text: string, reference: RecordRef, details: string)
  datatype Drop = Drop(rationale: string, details: string)
  datatype Question = Question(
    questionId: Id, status: QuestionStatus, version: int, answer: Option<Answer>, drop: Option<Drop>,
    relatedObjects: seq<RecordRef>, details: string)

  datatype WorkStatus = Todo | Doing | Blocked | Done | Dropped | WorkOther(name: string)
  datatype WorkItem = WorkItem(
    workItemId: Id, status: WorkStatus, version: int, blocker: Option<string>, updatedAt: Time,
    relatedObjects: seq<RecordRef>, details: string)

  // -------------------------------------------------------------------------- registry

  datatype FamilyField =
    | SubjectEntityId | SubjectEntityType | PredicateField | ObjectField | PolarityField
    | ScopeComponent | ScopeEnvironment | ScopeRegion | ScopeTenant | ValidFrom | ValidTo | UnknownField(path: string)
  datatype Rule = OppositePolarity | ExclusiveObject | TemporalOverlap
  datatype ObjectKind = EntityKind(entityTypes: set<string>) | EnumKind(enumValues: set<string>)
      | ScalarKind(kind: string)
  datatype ScopeField = Component | Environment | Region | Tenant
  datatype Temporal = TimeRequired | TimeOptional | TimeForbidden
  datatype Cardinality = One | Many
  datatype Predicate = Predicate(
    subjectTypes: set<string>, objectKind: ObjectKind,
    allowedScope: set<ScopeField>, requiredScope: set<ScopeField>,
    temporal: Temporal, cardinality: Cardinality, familyKeyFields: seq<FamilyField>, rules: set<Rule>,
    minimumEvidence: nat, allowedInterpretations: set<Interpretation>)
  datatype Registry = Registry(version: string, guardDsl: string, predicates: map<string, Predicate>)
  datatype RegistryHash = RegistryHash(registry: Registry)

  // ------------------------------------------------------------------------- proposals

  datatype Operation =
    | RegisterSource(source: Source)
    | AssertClaim(claim: Claim, initialEvidence: seq<EvidenceLink>)
    | AttachEvidence(link: EvidenceLink)
    | SupersedeClaim(targetClaim: Id, replacementClaim: Claim, replacementEvidence: seq<EvidenceLink>,
        rationale: string)
    | RetractClaim(retractedClaim: Id, evidenceLinkIds: seq<Id>, policy: string, rationale: string)
    | ResolveConflict(conflictId: Id, expectedMemberDigest: MemberDigest, resolution: Resolution)
    | RecordDecision(decision: Decision)
    | SupersedeDecision(targetDecision: Id, disposition: DecisionStatus, replacementDecision: Decision,
        rationale: string)
    | OpenQuestion(question: Question)
    | AnswerQuestion(answeredQuestion: Id, answer: Answer)
    | DropQuestion(droppedQuestion: Id, drop: Drop)
    | CreateWorkItem(workItem: WorkItem)
    | UpdateWorkItem(targetWorkItem: Id, newStatus: WorkStatus, blocker: Option<string>, rationale: string,
        updatedBy: Actor, updatedAt: Time)
    | UnsupportedOperation(name: string)

  datatype Read =
    | CollectionRead(familyKey: FamilyKey, expectedMembers: ActiveSetDigest)
    | AggregateRead(aggregateType: RecordType, aggregateId: Id, expectedVersion: nat)

  datatype Guard =
    | ClaimStatusEq(claimId: Id, claimStatus: ClaimStatus)
    | ClaimVersionEq(claimId: Id, expectedVersion: nat)
    | ConflictStatusEq(conflictId: Id, conflictStatus: ConflictStatus)
    | ConflictMemberDigestEq(conflictId: Id, expectedDigest: MemberDigest)
    | ActiveSetDigestEq(familyKey: FamilyKey, expectedMembers: ActiveSetDigest)
    | SourceHashEq(sourceId: Id, expectedHash: ContentHash)
    | NoActiveClaim(familyKey: FamilyKey)
    | DecisionStatusEq(decisionId: Id, decisionStatus: DecisionStatus)
    | DecisionVersionEq(decisionId: Id, expectedVersion: nat)
    | QuestionStatusEq(questionId: Id, questionStatus: QuestionStatus)
    | QuestionVersionEq(questionId: Id, expectedVersion: nat)
    | WorkItemStatusEq(workItemId: Id, workStatus: WorkStatus)
    | WorkItemVersionEq(workItemId: Id, expectedVersion: nat)

  datatype Versions = Versions(
    schema: string, predicateRegistry: string, registryHash: Option<RegistryHash>,
    conflictRules: string, guardDsl: string, projection: string)

  datatype Proposal = Proposal(
    proposalId: Id, idempotencyKey: string, proposer: Actor, proposedAt: Time, versions: Versions,
    readSet: seq<Read>, guards: seq<Guard>, operations: seq<Operation>)

  // ---------------------------------------------------------------------------- tables

  datatype ClaimStatus = Active | Superseded | Retracted
  datatype SourceRow = SourceRow(contentHash: ContentHash, document: Source, content: seq<byte>)
  datatype ClaimRow = ClaimRow(
    propositionHash: PropositionHash, proposition: Proposition, document: Claim,
    status: ClaimStatus, version: nat, supersededBy: Option<Id>)
  datatype EvidenceRow = EvidenceRow(claimId: Id, sourceRevisionId: Id, document: EvidenceLink)
  datatype ConflictRow = ConflictRow(
    familyKey: FamilyKey, kind: ConflictKind, memberDigest: MemberDigest, members: set<Id>,
    status: ConflictStatus, episode: nat, version: nat, resolution: Option<Resolution>, openedSeq: nat)
  datatype DecisionRow = DecisionRow(status: DecisionStatus, version: nat, replacedBy: Option<Id>, document: Decision)
  datatype QuestionRow = QuestionRow(status: QuestionStatus, version: nat, answer: Option<Answer>, drop: Option<Drop>,
      document: Question)
  datatype WorkItemRow = WorkItemRow(status: WorkStatus, version: nat, blocker: Option<string>, updatedAt: Time,
      document: WorkItem)

  datatype Tables = Tables(
    sources: map<Id, SourceRow>, claims: map<Id, ClaimRow>, evidence: map<Id, EvidenceRow>,
    conflicts: map<Id, ConflictRow>, decisions: map<Id, DecisionRow>,
    questions: map<Id, QuestionRow>, workItems: map<Id, WorkItemRow>)

  const EMPTY_TABLES := Tables(map[], map[], map[], map[], map[], map[], map[])

  // ---------------------------------------------------------------------------- events

  datatype Event =
    | SourceRevisionRegistered(source: Source)
    | ClaimAsserted(claim: Claim, initialEvidence: seq<EvidenceLink>)
    | EvidenceAttached(link: EvidenceLink)
    | ClaimSuperseded(targetClaim: Id, replacementClaimId: Id, rationale: string)
    | ClaimRetracted(retractedClaim: Id, actor: Actor, policy: string, rationale: string)
    | ConflictOpened(conflict: Conflict)
    | ConflictResolved(conflictId: Id, resolution: Resolution)
    | DecisionRecorded(decision: Decision)
    | DecisionReplaced(
        targetDecision: Id, disposition: DecisionStatus, replacementDecision: Decision, rationale: string,
        previousVersion: nat, newVersion: nat)
    | QuestionOpened(question: Question)
    | QuestionAnsweredEvent(answeredQuestion: Id, answer: Answer, previousVersion: nat, newVersion: nat)
    | QuestionDroppedEvent(droppedQuestion: Id, drop: Drop, previousVersion: nat, newVersion: nat)
    | WorkItemCreated(workItem: WorkItem)
    | WorkItemUpdated(
        targetWorkItem: Id, previousStatus: WorkStatus, newStatus: WorkStatus, blocker: Option<string>,
        rationale: string, updatedBy: Actor, updatedAt: Time, previousVersion: nat, newVersion: nat)

  // ---------------------------------------------------------------------------- errors

  datatype Code =
    | PropositionHashMismatch | UnknownPredicate | SubjectTypeMismatch | InsufficientEvidence
    | ObjectKindMismatch | ObjectEntityTypeMismatch | ObjectEnumValueNotAllowed
    | ScopeFieldNotAllowed | RequiredScopeMissing
    | ValidTimeRequired | ValidTimeForbidden | InvalidValidTimeRange | EvidenceInterpretationNotAllowed
    | EvidenceClaimMismatch | SourceRevisionNotFound | EvidenceSelectorMismatch | MalformedProposal
    | SourceRevisionImmutabilityViolation | SourceContentUnavailable | SourceContentHashMismatch
    | DuplicateObjectId | ActorNotAuthorized | EvidenceReferenceNotFound | InvalidConflictResolution
    | ClaimStatusMismatch | ClaimVersionMismatch
    | ConflictStatusMismatch | ConflictVersionMismatch | ConflictMemberDigestMismatch | ConflictResolutionEpochMismatch
    | ConflictMemberNotFound | ConflictFamilyKeyMismatch
    | InvalidNewDecisionState | InvalidDecisionDisposition | DecisionStatusMismatch | DecisionVersionMismatch
    | InvalidNewQuestionState | QuestionStatusMismatch | QuestionVersionMismatch
    | InvalidNewWorkItemState | InvalidWorkItemStatus | InvalidWorkItemBlocker | WorkItemStatusMismatch
        | WorkItemVersionMismatch
    | ActiveSetDigestMismatch | ActiveClaimExists | SourceVersionMismatch | SourceHashMismatch
    | MissingRequiredClaimRead | MissingRequiredConflictRead | MissingRequiredDecisionRead
    | MissingRequiredQuestionRead | MissingRequiredWorkItemRead
    | ReferenceTypeMismatch | ReferenceNotFound | UnsupportedOperationCode
    | ReplayPreconditionFailed | ReplayTransitionMismatch
    | SchemaValidationFailed | UnsupportedSchemaVersion | UnsupportedPredicateRegistry | RegistryContentMismatch
    | UnsupportedConflictRules | UnsupportedGuardDsl | UnsupportedProjection | LedgerEntrySchemaInvalid
    | ProposalTooDeep | ProposalTooLarge | IdempotencyKeyReuse

  /** `Stale` becomes a TRANSACTION_CONFLICT receipt, `Invalid` a VALIDATION_ERROR receipt. */
  datatype Failure = Stale(code: Code) | Invalid(code: Code)
}
