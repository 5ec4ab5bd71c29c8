/** A FACT directive turned into a proposed claim, and why the kernel accepts its evidence. */
module FactEvidence {
  import opened Directives
  import opened Lines
  import opened Utf8
  import opened Wrappers
  import Domain
  import Json
  import Reducers
  import Refinement
  import Replay
  import Rules

  /** What the extractor takes from elsewhere: slugs, upper case, timestamps, the first entity type
      a predicate lists, and the identifiers made from a digest. */
  datatype Host = Host(
    slug: string -> string, upper: string -> string, timestamp: string -> Option<Domain.Time>,
    firstType: set<string> -> string, claimId: (Domain.Id, nat, Domain.Proposition) -> Domain.Id,
    evidenceId: (Domain.Id, nat, Domain.Proposition) -> Domain.Id)

  datatype FactError = FactDirectiveInvalid | UnknownPredicate | SubjectTypeNotAllowed

  function SplitOn(text: string, separator: char): (fields: seq<string>)
    ensures |fields| >= 1
  {
    if text == "" then [""]
    else
      var rest := SplitOn(text[1..], separator);
      if text[0] == separator then [""] + rest else [[text[0]] + rest[0]] + rest[1..]
  }

  function Fields(payload: string): (fields: seq<string>)
    ensures |fields| >= 1
  {
    var parts := SplitOn(payload, '|');
    seq(|parts|, i requires 0 <= i < |parts| => Strip(parts[i]))
  }

  /** The part of an entity identifier before its first colon. */
  function EntityType(entityId: string): string {
    SplitOn(entityId, ':')[0]
  }

  function FactObject(def: Domain.Predicate, value: string, host: Host): Domain.ObjectValue {
    match def.objectKind
    case EntityKind(types) =>
      if |SplitOn(value, ':')| > 1 then Domain.EntityValue(Domain.EntityRef(value, EntityType(value)))
      else
        var entityType := host.firstType(types);
        Domain.EntityValue(Domain.EntityRef(entityType + ":" + host.slug(value), entityType))
    case EnumKind(_) => Domain.EnumValue(host.upper(value))
    case ScalarKind(_) => Domain.ScalarValue("string", value)
  }

  function FactTime(def: Domain.Predicate, fields: seq<string>, capturedAt: Domain.Time,
      host: Host): Option<Domain.Time> {
    var stated := if |fields| > 4 then host.timestamp(fields[4]) else Some(capturedAt);
    if def.temporal == Domain.TimeRequired && stated.None? then Some(capturedAt) else stated
  }

  function FactProposition(def: Domain.Predicate, fields: seq<string>, capturedAt: Domain.Time,
      host: Host): Domain.Proposition
    requires |fields| >= 4
  {
    Domain.Proposition(
      Domain.EntityRef(fields[0], EntityType(fields[0])), fields[1], FactObject(def, fields[2], host), Domain.Positive,
      Domain.Scope(None, if fields[3] == "" then None else Some(fields[3]), None, None),
      Domain.ValidTime(FactTime(def, fields, capturedAt, host), None))
  }

  /** The selector of a directive's line. */
  function DirectiveSelector(d: Directive): Domain.Selector {
    Domain.Selector(d.startByte, d.endByte, d.excerpt, Domain.ContentHash(Encode(d.excerpt)))
  }

  function FactOperation(revisionId: Domain.Id, capturedAt: Domain.Time, d: Directive, registry: Domain.Registry,
      host: Host):
    Result<Domain.Operation, FactError>
  {
    var fields := Fields(d.payload);
    if |fields| < 4 then Err(FactDirectiveInvalid)
    else if fields[1] !in registry.predicates then Err(UnknownPredicate)
    else
      var def := registry.predicates[fields[1]];
      if EntityType(fields[0]) !in def.subjectTypes then Err(SubjectTypeNotAllowed)
      else
        var proposition := FactProposition(def, fields, capturedAt, host);
        var claimId := host.claimId(revisionId, d.startByte, proposition);
        var actor := Domain.Actor("service:shared-mind-extractor", Domain.Service);
        Ok(Domain.AssertClaim(
             Domain.Claim(claimId, Domain.PropositionHash(proposition), proposition, actor, ""),
             [Domain.EvidenceLink(host.evidenceId(revisionId, d.startByte, proposition), claimId, revisionId,
                                  DirectiveSelector(d), Domain.Direct, "SUPPORTS")]))
  }

  /** The kernel's selector check passes on the document the directive was found in. */
  lemma SelectorPasses(content: string, options: Options, parse: string -> Option<Json.Json>, d: Directive)
    requires d in Found(TextLines(content), options, parse)
    ensures Rules.SelectorError(Encode(content), DirectiveSelector(d)) == None
  {
    EveryExcerptMatches(content, options, parse, d);
    var bytes := Encode(content);
    DecodeOfEncode(d.excerpt);
  }

  /** The one link of a proposed claim: its selector is the directive's, its claim the proposed one. */
  ghost predicate LinksDirective(op: Domain.Operation, d: Directive, revisionId: Domain.Id) {
    && op.AssertClaim? && |op.initialEvidence| == 1 && op.initialEvidence == [op.initialEvidence[0]]
    && op.initialEvidence[0].selector == DirectiveSelector(d)
    && op.initialEvidence[0].claimId == op.claim.claimId && op.initialEvidence[0].sourceRevisionId == revisionId
  }

  lemma FactLinksDirective(revisionId: Domain.Id, capturedAt: Domain.Time, d: Directive, registry: Domain.Registry,
      host: Host)
    requires FactOperation(revisionId, capturedAt, d, registry, host).Ok?
    ensures LinksDirective(FactOperation(revisionId, capturedAt, d, registry, host).value, d, revisionId)
  {
  }

  predicate ObjectTaken(kind: Domain.ObjectKind, value: string, host: Host) {
    match kind
    case EntityKind(types) => (if |SplitOn(value, ':')| > 1 then EntityType(value) else host.firstType(types)) in types
    case EnumKind(values) => host.upper(value) in values
    case ScalarKind(kind) => kind == "string"
  }

  /** What the predicate must allow for a proposed claim to be taken: the object as it is written, at
      most the environment as scope, no closed time, direct evidence, and one link. */
  predicate Taken(def: Domain.Predicate, fields: seq<string>, capturedAt: Domain.Time, host: Host)
    requires |fields| >= 4
  {
    && ObjectTaken(def.objectKind, fields[2], host)
    && (fields[3] != "" ==> Domain.Environment in def.allowedScope)
    && def.requiredScope <= (if fields[3] == "" then {} else {Domain.Environment})
    && (def.temporal == Domain.TimeForbidden ==> FactTime(def, fields, capturedAt, host).None?)
    && Domain.Direct in def.allowedInterpretations && def.minimumEvidence <= 1
  }

  lemma OnlyEnvironment(scope: Domain.Scope, allowed: set<Domain.ScopeField>, required: set<Domain.ScopeField>)
    requires scope.component.None? && scope.region.None? && scope.tenant.None?
    ensures Rules.ScopeAllowed(scope, allowed) <==> (scope.environment.Some? ==> Domain.Environment in allowed)
    ensures Rules.ScopeComplete(scope, required) <==>
        required <= (if scope.environment.None? then {} else {Domain.Environment})
  {
    forall field: Domain.ScopeField
      ensures Rules.ScopeOf(scope, field).Some? <==> field == Domain.Environment && scope.environment.Some?
    {
    }
    assert Rules.ScopeOf(scope, Domain.Environment) == scope.environment;
  }

  /** The kernel never refuses a proposed claim for its hash, its predicate or its subject, and takes it
      exactly when its predicate allows what extraction writes. */
  lemma FactClaimIsWellFormed(revisionId: Domain.Id, capturedAt: Domain.Time, d: Directive, registry: Domain.Registry,
      host: Host)
    requires FactOperation(revisionId, capturedAt, d, registry, host).Ok?
    ensures
      var op, fields := FactOperation(revisionId, capturedAt, d, registry, host).value, Fields(d.payload);
      var error := Rules.ClaimError(registry, op.claim, op.initialEvidence);
      && error != Some(Domain.PropositionHashMismatch) && error != Some(Domain.UnknownPredicate)
      && error != Some(Domain.SubjectTypeMismatch)
      && (error.None? <==> Taken(registry.predicates[fields[1]], fields, capturedAt, host))
  {
    var op, fields := FactOperation(revisionId, capturedAt, d, registry, host).value, Fields(d.payload);
    var p, def := op.claim.proposition, registry.predicates[fields[1]];
    assert p == FactProposition(def, fields, capturedAt, host);
    OnlyEnvironment(p.scope, def.allowedScope, def.requiredScope);
    assert op.initialEvidence[0].interpretation == Domain.Direct && op.initialEvidence[0] in op.initialEvidence;
    assert Rules.InterpretationsAllowed(def, op.initialEvidence) <==> Domain.Direct in def.allowedInterpretations;
  }

  /** When the directive's source is registered with the content that was read, the kernel takes the
      evidence of the proposed claim unless its identifier is already in use. */
  lemma KernelTakesExtractedEvidence(content: string, options: Options, parse: string -> Option<Json.Json>,
      d: Directive, revisionId: Domain.Id, op: Domain.Operation, t: Domain.Tables)
    requires d in Found(TextLines(content), options, parse) && LinksDirective(op, d, revisionId)
    requires revisionId in t.sources && t.sources[revisionId].content == Encode(content)
    ensures Reducers.InsertLinks(t, op.initialEvidence, op.claim.claimId).Ok? <==>
        op.initialEvidence[0].evidenceLinkId !in t.evidence
  {
    SelectorPasses(content, options, parse, d);
  }

  /** An assertion whose one link selects the directive applies exactly when the claim passes its checks
      and neither of the two identifiers is in use. */
  lemma LinkedClaimApplies(content: string, options: Options, parse: string -> Option<Json.Json>, d: Directive,
      revisionId: Domain.Id, op: Domain.Operation, registry: Domain.Registry, proposer: Domain.Actor, openedSeq: nat,
      t: Domain.Tables)
    requires d in Found(TextLines(content), options, parse) && LinksDirective(op, d, revisionId)
    requires revisionId in t.sources && t.sources[revisionId].content == Encode(content)
    requires Rules.FamiliesNamePredicate(registry) && Replay.Sound(registry, t)
    ensures Reducers.ApplyOperation(registry, proposer, openedSeq, t, op).Ok? <==>
        Rules.ClaimError(registry, op.claim, op.initialEvidence).None?
        && op.claim.claimId !in t.claims && op.initialEvidence[0].evidenceLinkId !in t.evidence
  {
    Refinement.AdmittedIsAsserted(registry, t, op.claim, op.initialEvidence, {}, openedSeq);
    KernelTakesExtractedEvidence(content, options, parse, d, revisionId, op,
      t.(claims := t.claims[op.claim.claimId := Reducers.FreshClaimRow(op.claim)]));
  }

  /** Applying the claim extracted from a registered source succeeds exactly when its predicate allows
      what extraction writes and neither the claim's nor the link's identifier is in use. */
  lemma ExtractedFactApplies(content: string, options: Options, parse: string -> Option<Json.Json>, d: Directive,
      revisionId: Domain.Id, capturedAt: Domain.Time, registry: Domain.Registry, host: Host, proposer: Domain.Actor,
      openedSeq: nat, t: Domain.Tables, op: Domain.Operation)
    requires d in Found(TextLines(content), options, parse)
    requires FactOperation(revisionId, capturedAt, d, registry, host) == Ok(op)
    requires revisionId in t.sources && t.sources[revisionId].content == Encode(content)
    requires Rules.FamiliesNamePredicate(registry) && Replay.Sound(registry, t)
    ensures
      var fields := Fields(d.payload);
      Reducers.ApplyOperation(registry, proposer, openedSeq, t, op).Ok? <==>
        Taken(registry.predicates[fields[1]], fields, capturedAt, host)
        && op.claim.claimId !in t.claims && op.initialEvidence[0].evidenceLinkId !in t.evidence
  {
    FactLinksDirective(revisionId, capturedAt, d, registry, host);
    FactClaimIsWellFormed(revisionId, capturedAt, d, registry, host);
    LinkedClaimApplies(content, options, parse, d, revisionId, op, registry, proposer, openedSeq, t);
  }
}
