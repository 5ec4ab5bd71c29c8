/** The pure rules of the kernel: families, conflict kinds, predicate semantics and
    evidence selectors. */
module Rules {
  import opened Wrappers
  import opened Utf8
  import opened Domain

  // -------------------------------------------------------------------- family keys

  function TextOrMissing(text: Option<string>): FamilyValue {
    if text.Some? then Text(text.value) else Missing
  }

  function TimeOrMissing(time: Option<Time>): FamilyValue {
    if time.Some? then At(time.value) else Missing
  }

  function FieldValue(p: Proposition, field: FamilyField): FamilyValue {
    match field
    case SubjectEntityId => Text(p.subject.entityId)
    case SubjectEntityType => Text(p.subject.entityType)
    case PredicateField => Text(p.predicateKey)
    case ObjectField => Whole(p.objectValue)
    case PolarityField => Sign(p.polarity)
    case ScopeComponent => TextOrMissing(p.scope.component)
    case ScopeEnvironment => TextOrMissing(p.scope.environment)
    case ScopeRegion => TextOrMissing(p.scope.region)
    case ScopeTenant => TextOrMissing(p.scope.tenant)
    case ValidFrom => TimeOrMissing(p.validTime.from)
    case ValidTo => TimeOrMissing(p.validTime.to)
    case UnknownField(_) => Missing
  }

  function FamilyKeyUnder(p: Proposition, def: Predicate): FamilyKey {
    var fields := def.familyKeyFields;
    FamilyKey(seq(|fields|, i requires 0 <= i < |fields| => FieldValue(p, fields[i])))
  }

  /** The registry assumption: every family is partitioned by the predicate itself. */
  ghost predicate FamiliesNamePredicate(registry: Registry) {
    forall key :: key in registry.predicates ==> PredicateField in registry.predicates[key].familyKeyFields
  }

  predicate Known(registry: Registry, p: Proposition) {
    p.predicateKey in registry.predicates
  }

  function OwnFamily(registry: Registry, p: Proposition): FamilyKey
    requires Known(registry, p)
  {
    FamilyKeyUnder(p, registry.predicates[p.predicateKey])
  }

  /** The live kernel keys the other claim with the incoming claim's predicate, replay keys
      each claim with its own; both see the same family. */
  lemma FamilyDeterminesPredicate(registry: Registry, p: Proposition, q: Proposition)
    requires FamiliesNamePredicate(registry) && Known(registry, p)
    requires FamilyKeyUnder(q, registry.predicates[p.predicateKey]) == OwnFamily(registry, p)
    ensures q.predicateKey == p.predicateKey
    ensures OwnFamily(registry, q) == OwnFamily(registry, p)
  {
    var fields := registry.predicates[p.predicateKey].familyKeyFields;
    var i :| 0 <= i < |fields| && fields[i] == PredicateField;
    assert FamilyKeyUnder(q, registry.predicates[p.predicateKey]).values[i] == Text(q.predicateKey);
    assert OwnFamily(registry, p).values[i] == Text(p.predicateKey);
  }

  // ----------------------------------------------------------------- conflict kinds

  /** The later of two starts; an open start is earlier than every time. */
  function LaterStart(a: Option<Time>, b: Option<Time>): Option<Time> {
    if a.None? then b else if b.None? then a else Some(if a.value < b.value then b.value else a.value)
  }

  /** The earlier of two ends; an open end is later than every time. */
  function EarlierEnd(a: Option<Time>, b: Option<Time>): Option<Time> {
    if a.None? then b else if b.None? then a else Some(if a.value < b.value then a.value else b.value)
  }

  predicate Overlaps(left: ValidTime, right: ValidTime) {
    var start := LaterStart(left.from, right.from);
    var end := EarlierEnd(left.to, right.to);
    start.None? || end.None? || start.value < end.value
  }

  function KindOfConflict(incoming: Proposition, other: Proposition, def: Predicate): Option<ConflictKind> {
    if TemporalOverlap in def.rules && !Overlaps(incoming.validTime, other.validTime) then None
    else if OppositePolarity in def.rules && incoming.objectValue == other.objectValue
        && incoming.polarity != other.polarity
    then Some(PolarityClash)
    else if ExclusiveObject in def.rules && def.cardinality == One
            && incoming.polarity == other.polarity == Positive && incoming.objectValue != other.objectValue
    then Some(ExclusiveValue)
    else None
  }

  lemma KindOfConflictSymmetric(p: Proposition, q: Proposition, def: Predicate)
    ensures KindOfConflict(p, q, def) == KindOfConflict(q, p, def)
  {
    assert Overlaps(p.validTime, q.validTime) == Overlaps(q.validTime, p.validTime);
  }

  /** Valid times overlap exactly when some instant lies in both half-open intervals. */
  lemma OverlapsIsSharedInstant(left: ValidTime, right: ValidTime)
    requires left.from.Some? && left.to.Some? ==> left.from.value < left.to.value
    requires right.from.Some? && right.to.Some? ==> right.from.value < right.to.value
    ensures Overlaps(left, right) <==> exists t: Time :: Within(t, left) && Within(t, right)
  {
    var start := LaterStart(left.from, right.from);
    var end := EarlierEnd(left.to, right.to);
    if Overlaps(left, right) {
      var t := if start.Some? then start.value else if end.Some? then end.value - 1 else 0;
      assert Within(t, left) && Within(t, right);
    }
  }

  predicate Within(t: Time, interval: ValidTime) {
    (interval.from.Some? ==> interval.from.value <= t) && (interval.to.Some? ==> t < interval.to.value)
  }

  // ------------------------------------------------------------- predicate semantics

  function ScopeOf(scope: Scope, field: ScopeField): Option<string> {
    match field
    case Component => scope.component
    case Environment => scope.environment
    case Region => scope.region
    case Tenant => scope.tenant
  }

  predicate ScopeAllowed(scope: Scope, allowed: set<ScopeField>) {
    forall field: ScopeField :: ScopeOf(scope, field).Some? ==> field in allowed
  }

  predicate ScopeComplete(scope: Scope, required: set<ScopeField>) {
    forall field: ScopeField :: field in required ==> ScopeOf(scope, field).Some?
  }

  function ObjectError(objectValue: ObjectValue, expected: ObjectKind): Option<Code> {
    match (objectValue, expected)
    case (EntityValue(entity), EntityKind(entityTypes)) =>
      if entity.entityType in entityTypes then None else Some(ObjectEntityTypeMismatch)
    case (EnumValue(symbol), EnumKind(enumValues)) =>
      if symbol in enumValues then None else Some(ObjectEnumValueNotAllowed)
    case (ScalarValue(kind, _), ScalarKind(expectedKind)) =>
      if kind == expectedKind then None else Some(ObjectKindMismatch)
    case _ => Some(ObjectKindMismatch)
  }

  function TimeError(time: ValidTime, temporal: Temporal): Option<Code> {
    if temporal == TimeRequired && time.from.None? then Some(ValidTimeRequired)
    else if temporal == TimeForbidden && (time.from.Some? || time.to.Some?) then Some(ValidTimeForbidden)
    else if time.from.Some? && time.to.Some? && time.from.value >= time.to.value then Some(InvalidValidTimeRange)
    else None
  }

  predicate InterpretationsAllowed(def: Predicate, evidence: seq<EvidenceLink>) {
    forall link :: link in evidence ==> link.interpretation in def.allowedInterpretations
  }

  function SemanticsError(p: Proposition, def: Predicate, evidence: seq<EvidenceLink>): Option<Code> {
    var objectError := ObjectError(p.objectValue, def.objectKind);
    if objectError.Some? then objectError
    else if !ScopeAllowed(p.scope, def.allowedScope) then Some(ScopeFieldNotAllowed)
    else if !ScopeComplete(p.scope, def.requiredScope) then Some(RequiredScopeMissing)
    else
      var timeError := TimeError(p.validTime, def.temporal);
      if timeError.Some? then timeError
      else if !InterpretationsAllowed(def, evidence) then Some(EvidenceInterpretationNotAllowed)
      else None
  }

  /** The checks on a new claim that need no table. */
  function ClaimError(registry: Registry, claim: Claim, evidence: seq<EvidenceLink>): Option<Code> {
    var p := claim.proposition;
    if claim.propositionHash != PropositionHash(p) then Some(PropositionHashMismatch)
    else if !Known(registry, p) then Some(UnknownPredicate)
    else
      var def := registry.predicates[p.predicateKey];
      if p.subject.entityType !in def.subjectTypes then Some(SubjectTypeMismatch)
      else
        var semantics := SemanticsError(p, def, evidence);
        if semantics.Some? then semantics
        else if |evidence| < def.minimumEvidence then Some(InsufficientEvidence)
        else None
  }

  // ------------------------------------------------------------- evidence selectors

  /** A slice whose bounds are clamped to the content. */
  function Slice(content: seq<byte>, start: nat, end: nat): seq<byte> {
    var to := if end < |content| then end else |content|;
    if start < to then content[start..to] else []
  }

  function SelectorError(content: seq<byte>, selector: Selector): Option<Code> {
    var excerpt := Slice(content, selector.startByte, selector.endByte);
    match Decode(excerpt)
    case None => Some(MalformedProposal)
    case Some(text) =>
      if text != selector.excerpt || selector.excerptHash != ContentHash(excerpt)
      then Some(EvidenceSelectorMismatch)
      else None
  }

  predicate Authorized(actor: Actor, authority: Actor) {
    actor.actorType == Human || actor.actorId == authority.actorId
  }
}
