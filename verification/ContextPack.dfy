/** The handoff context: everything mandatory, then current claims for as long as they fit. */
module ContextPack {
  import opened Json
  import opened Wrappers
  import H = ProjectionHistory

  const DEFAULT_CONTEXT_BUDGET_BYTES: int := 32_000
  const TOKEN_BYTES_ESTIMATE: int := 4

  // ---------------------------------------------------------------------- the projection

  datatype EvidenceItem = EvidenceItem(
    linkId: string, claimId: string, sourceRevisionId: string, stance: Json, selector: Json, projectionRef: string)

  datatype ClaimItem = ClaimItem(
    claimId: string, status: string, version: nat, propositionHash: string, proposition: Json,
    projectionRef: string, history: H.History)

  datatype ConflictItem = ConflictItem(
    conflictId: string, kind: string, status: string, episode: nat, memberDigest: string, members: seq<string>,
    projectionRef: string, history: H.History)

  datatype ContinuityItem = ContinuityItem(status: Option<string>, record: Json)

  datatype Projection = Projection(
    version: string, headSequence: nat, stateRoot: string,
    claims: seq<ClaimItem>, evidence: seq<EvidenceItem>, conflicts: seq<ConflictItem>,
    decisions: seq<ContinuityItem>, questions: seq<ContinuityItem>, workItems: seq<ContinuityItem>)

  datatype Failure =
    | InvalidArgument(message: string)
    | ProjectionFailure(message: string)
    | BudgetExceeded(requiredBytes: nat, budgetBytes: int)

  // ------------------------------------------------------------------------ rendering

  function Numbers(ns: seq<nat>): Json {
    List(seq(|ns|, i requires 0 <= i < |ns| => Number(ns[i])))
  }

  function Texts(ts: seq<string>): Json {
    List(seq(|ts|, i requires 0 <= i < |ts| => Text(ts[i])))
  }

  function PlaceTexts(places: seq<H.Place>): seq<string> {
    seq(|places|, i requires 0 <= i < |places| => H.PlaceText(places[i]))
  }

  function HistoryMembers(h: H.History): seq<Member> {
    (if h.cut.None? then []
     else [
       Member("full_history_ref", Text(H.PlaceText(h.cut.value.fullRef))),
       Member("history_included_count", Number(h.cut.value.included)),
       Member("history_omitted_count", Number(h.cut.value.omitted))
     ])
    + [Member("history_refs", Texts(PlaceTexts(h.refs))), Member("history_sequences", Numbers(h.sequences))]
    + (if h.cut.None? then [] else [Member("history_truncated", Boolean(true))])
  }

  function ContextEvidence(e: EvidenceItem): Json {
    Object([
      Member("evidence_link_id", Text(e.linkId)),
      Member("projection_ref", Text(e.projectionRef)),
      Member("selector", e.selector),
      Member("source_revision_id", Text(e.sourceRevisionId)),
      Member("stance", e.stance)])
  }

  /** The evidence of one claim, in projection order. */
  function EvidenceOf(evidence: seq<EvidenceItem>, claimId: string): seq<Json> {
    if evidence == [] then []
    else
      var e := evidence[|evidence| - 1];
      EvidenceOf(evidence[..|evidence| - 1], claimId) + if e.claimId == claimId then [ContextEvidence(e)] else []
  }

  function ContextClaim(c: ClaimItem, evidence: seq<EvidenceItem>): Json {
    Object(
      [Member("claim_id", Text(c.claimId)), Member("evidence", List(EvidenceOf(evidence, c.claimId)))]
      + HistoryMembers(c.history)
      + [
        Member("projection_ref", Text(c.projectionRef)),
        Member("proposition", c.proposition),
        Member("proposition_hash", Text(c.propositionHash)),
        Member("status", Text(c.status)),
        Member("version", Number(c.version))])
  }

  function ContextConflict(c: ConflictItem, members: seq<Json>): Json {
    Object(
      [Member("conflict_id", Text(c.conflictId)), Member("episode", Number(c.episode))]
      + HistoryMembers(c.history)
      + [
        Member("kind", Text(c.kind)),
        Member("member_digest", Text(c.memberDigest)),
        Member("members", List(members)),
        Member("projection_ref", Text(c.projectionRef)),
        Member("status", Text(c.status))])
  }

  // ----------------------------------------------------------------------- selection

  /** The claim an identifier names; a later row replaces an earlier one. */
  function FindClaim(claims: seq<ClaimItem>, claimId: string): (r: Option<ClaimItem>)
    ensures r.Some? ==> r.value in claims && r.value.claimId == claimId
    ensures r.None? <==> forall c :: c in claims ==> c.claimId != claimId
  {
    if claims == [] then None
    else if claims[|claims| - 1].claimId == claimId then Some(claims[|claims| - 1])
    else FindClaim(claims[..|claims| - 1], claimId)
  }

  function MemberClaims(p: Projection, ids: seq<string>): Option<seq<Json>> {
    if ids == [] then Some([])
    else
      match (MemberClaims(p, ids[..|ids| - 1]), FindClaim(p.claims, ids[|ids| - 1]))
      case (Some(front), Some(claim)) => Some(front + [ContextClaim(claim, p.evidence)])
      case _ => None
  }

  /** The open conflicts among the first `n`, each with all its members, or None when a member is missing. */
  function OpenConflicts(p: Projection, n: nat): Option<seq<Json>>
    requires n <= |p.conflicts|
  {
    if n == 0 then Some([])
    else
      var c := p.conflicts[n - 1];
      match OpenConflicts(p, n - 1)
      case None => None
      case Some(front) =>
        if c.status != "OPEN" then Some(front)
        else
          match MemberClaims(p, c.members)
          case None => None
          case Some(members) => Some(front + [ContextConflict(c, members)])
  }

  predicate Conflicted(p: Projection, claimId: string) {
    exists i :: 0 <= i < |p.conflicts| && p.conflicts[i].status == "OPEN" && claimId in p.conflicts[i].members
  }

  /** The ACTIVE claims among the first `n` that no open conflict names. */
  function CurrentClaims(p: Projection, n: nat): seq<Json>
    requires n <= |p.claims|
  {
    if n == 0 then []
    else
      var c := p.claims[n - 1];
      CurrentClaims(p, n - 1)
      + if c.status == "ACTIVE" && !Conflicted(p, c.claimId) then [ContextClaim(c, p.evidence)] else []
  }

  function ActiveContinuity(items: seq<ContinuityItem>, active: set<string>, known: set<string>): Option<seq<Json>> {
    if items == [] then Some([])
    else
      var last := items[|items| - 1];
      match ActiveContinuity(items[..|items| - 1], active, known)
      case None => None
      case Some(front) =>
        if last.status.None? || last.status.value !in known then None
        else if last.status.value in active then Some(front + [last.record])
        else Some(front)
  }
}
