/** Building the handoff context from a projection. */
module ContextBuild {
  import opened ContextBudget
  import opened ContextPack
  import opened Json
  import opened RenderedSize
  import opened TextRules
  import opened Wrappers

  function Smaller(a: int, b: int): int {
    if a <= b then a else b
  }

  /** A limit that was given, and no given limit is smaller; the default when none was given. */
  predicate SmallestLimit(bytes: Option<int>, tokens: Option<int>, limit: int) {
    && (bytes.Some? ==> limit <= bytes.value)
    && (tokens.Some? ==> limit <= TOKEN_BYTES_ESTIMATE * tokens.value)
    && (bytes == Some(limit)
        || (tokens.Some? && limit == TOKEN_BYTES_ESTIMATE * tokens.value)
        || (bytes.None? && tokens.None? && limit == DEFAULT_CONTEXT_BUDGET_BYTES))
  }

  /** The hard limit in bytes; a token limit counts four bytes a token. */
  function EffectiveBudget(bytes: Option<int>, tokens: Option<int>): (r: Result<int, Failure>)
    ensures r.Ok? <==> (bytes.Some? ==> bytes.value > 0) && (tokens.Some? ==> tokens.value > 0)
    ensures r.Ok? ==> r.value > 0
    ensures r.Ok? ==> SmallestLimit(bytes, tokens, r.value)
  {
    if bytes.Some? && bytes.value <= 0 then Err(InvalidArgument("budget_bytes must be a positive integer"))
    else if tokens.Some? && tokens.value <= 0 then Err(InvalidArgument("budget_tokens must be a positive integer"))
    else
      Ok(match (bytes, tokens)
         case (Some(b), Some(t)) => Smaller(b, t * TOKEN_BYTES_ESTIMATE)
         case (Some(b), None) => b
         case (None, Some(t)) => t * TOKEN_BYTES_ESTIMATE
         case (None, None) => DEFAULT_CONTEXT_BUDGET_BYTES)
  }

  const DECISION_STATUSES := {"ACTIVE", "SUPERSEDED", "REVERSED"}
  const QUESTION_STATUSES := {"OPEN", "ANSWERED", "DROPPED"}
  const WORK_ITEM_STATUSES := {"TODO", "DOING", "BLOCKED", "DONE", "DROPPED"}

  /** The mandatory sections. */
  datatype Mandatory = Mandatory(conflicts: seq<Json>, decisions: seq<Json>, questions: seq<Json>, workItems: seq<Json>)

  function MandatorySections(p: Projection): Result<Mandatory, Failure> {
    match OpenConflicts(p, |p.conflicts|)
    case None => Err(ProjectionFailure("open conflict has missing member claim"))
    case Some(conflicts) =>
      match ActiveContinuity(p.decisions, {"ACTIVE"}, DECISION_STATUSES)
      case None => Err(ProjectionFailure("unknown decision status"))
      case Some(decisions) =>
        match ActiveContinuity(p.questions, {"OPEN"}, QUESTION_STATUSES)
        case None => Err(ProjectionFailure("unknown question status"))
        case Some(questions) =>
          match ActiveContinuity(p.workItems, {"TODO", "DOING", "BLOCKED"}, WORK_ITEM_STATUSES)
          case None => Err(ProjectionFailure("unknown work item status"))
          case Some(workItems) => Ok(Mandatory(conflicts, decisions, questions, workItems))
  }

  function BasePack(p: Projection, m: Mandatory, purpose: Option<string>): Json {
    Object([
      Member("context_pack_version", Text("handoff-context@3")),
      Member("current_claims", List([])),
      Member("decisions", List(m.decisions)),
      Member("ledger_seq", Number(p.headSequence)),
      Member("open_conflicts", List(m.conflicts)),
      Member("open_questions", List(m.questions)),
      Member("projection_version", Text(p.version)),
      Member("purpose", if purpose.None? then Null else Text(purpose.value)),
      Member("purpose_missing", Boolean(purpose.None?)),
      Member("state_root", Text(p.stateRoot)),
      Member("truncation", Null),
      Member("work_items", List(m.workItems))])
  }

  lemma BaseSections(p: Projection, m: Mandatory, purpose: Option<string>)
    ensures
      var base := BasePack(p, m, purpose);
      && HasSections(base)
      && Get(base, "open_conflicts") == List(m.conflicts) && Get(base, "decisions") == List(m.decisions)
      && Get(base, "open_questions") == List(m.questions) && Get(base, "work_items") == List(m.workItems)
  {
    var members := BasePack(p, m, purpose).members;
    FirstIndex(members, 1, "current_claims");
    FirstIndex(members, 2, "decisions");
    FirstIndex(members, 4, "open_conflicts");
    FirstIndex(members, 5, "open_questions");
    assert members[3].key[0] == 'l';
    FirstIndex(members, 10, "truncation");
    FirstIndex(members, 11, "work_items");
  }

  /** Every pack the builder could return, from no current claim to all of them. */
  ghost function Packs(base: Json, claims: seq<Json>, budget: int, requested: Requested): (packs: seq<Json>)
    requires HasSections(base)
    ensures Candidates(packs, base, claims, budget, requested)
  {
    seq(|claims| + 1, n requires 0 <= n <= |claims| => At(base, claims, n, budget, requested))
  }

  /** The packs a call chooses from, once its arguments and the projection are accepted. */
  ghost function Choices(p: Projection, m: Mandatory, purpose: Option<string>, budget: int,
      requested: Requested): (packs: seq<Json>)
    ensures |packs| == |CurrentClaims(p, |p.claims|)| + 1
  {
    BaseSections(p, m, purpose);
    Packs(BasePack(p, m, purpose), CurrentClaims(p, |p.claims|), budget, requested)
  }

  /** The answer: an error for a bad argument or projection, an error exactly when the mandatory
      part alone is too large, and otherwise the longest prefix of claims reached before one did
      not fit. */
  ghost predicate Answers(p: Projection, bytes: Option<int>, tokens: Option<int>, purpose: Option<string>,
      labels: Labels, result: Result<Json, Failure>) {
    if purpose.Some? && Blank(purpose.value)
        then result == Err(InvalidArgument("purpose must be a non-empty string when supplied"))
    else
      match (EffectiveBudget(bytes, tokens), MandatorySections(p))
      case (Err(e), _) => result == Err(e)
      case (_, Err(e)) => result == Err(e)
      case (Ok(budget), Ok(m)) =>
        var packs := Choices(p, m, purpose, budget, Requested(bytes, tokens, labels));
        result == if Length(packs[0]) > budget then Err(BudgetExceeded(Length(packs[0]), budget))
                  else Ok(packs[Packed(packs, 0, budget)])
  }

  method FillPack(base: Json, claims: seq<Json>, ghost packs: seq<Json>, budget: int, requested: Requested)
    returns (result: Result<Json, Failure>)
    requires Candidates(packs, base, claims, budget, requested) && Get(base, "current_claims") == List([])
    ensures result == if Length(packs[0]) > budget then Err(BudgetExceeded(Length(packs[0]), budget))
                      else Ok(packs[Packed(packs, 0, budget)])
  {
    var pack := RefreshTruncation(base, |claims|, 0, budget, requested);
    StartIsFirst(base, claims, packs, budget, requested);
    var minimum := Length(pack);
    if minimum > budget {
      return Err(BudgetExceeded(minimum, budget));
    }
    var included: nat;
    pack, included := PackGreedily(pack, packs, base, claims, budget, requested);
    // The greedy pack fits, so dropping claims afterwards never removes one.
    pack, included := Reshown(pack, packs, base, claims, included, budget, requested);
    return Ok(pack);
  }

  /** The closing refresh and shrink. */
  method Reshown(start: Json, ghost packs: seq<Json>, base: Json, claims: seq<Json>, shown: nat, budget: int,
      requested: Requested)
    returns (pack: Json, included: nat)
    requires Candidates(packs, base, claims, budget, requested) && shown <= |claims| && start == packs[shown]
    ensures Length(packs[shown]) <= budget ==> pack == packs[shown] && included == shown
  {
    pack := Reshow(start, packs, base, claims, shown, shown, budget, requested);
    pack, included := Shrink(pack, shown, packs, base, claims, budget, requested);
  }

  lemma StartIsFirst(base: Json, claims: seq<Json>, packs: seq<Json>, budget: int, requested: Requested)
    requires Candidates(packs, base, claims, budget, requested) && Get(base, "current_claims") == List([])
    ensures packs[0] == Refreshed(base, |claims|, 0, budget, requested)
  {
    assert IsAt(packs[0], base, claims, 0, budget, requested);
    assert claims[..0] == [];
    SetGet(base, "current_claims");
  }

  method BuildContextPack(p: Projection, bytes: Option<int>, tokens: Option<int>, purpose: Option<string>,
      labels: Labels)
    returns (result: Result<Json, Failure>)
    ensures Answers(p, bytes, tokens, purpose, labels, result)
  {
    if purpose.Some? && Blank(purpose.value) {
      return Err(InvalidArgument("purpose must be a non-empty string when supplied"));
    }
    var limit := EffectiveBudget(bytes, tokens);
    if limit.Err? {
      return Err(limit.error);
    }
    var sections := MandatorySections(p);
    if sections.Err? {
      return Err(sections.error);
    }
    var claims := CurrentClaims(p, |p.claims|);
    var base := BasePack(p, sections.value, purpose);
    BaseSections(p, sections.value, purpose);
    BaseClaims(p, sections.value, purpose);
    ghost var packs := Packs(base, claims, limit.value, Requested(bytes, tokens, labels));
    result := FillPack(base, claims, packs, limit.value, Requested(bytes, tokens, labels));
  }

  lemma BaseClaims(p: Projection, m: Mandatory, purpose: Option<string>)
    ensures Has(BasePack(p, m, purpose), "current_claims") && Get(BasePack(p, m, purpose), "current_claims") == List([])
  {
    FirstIndex(BasePack(p, m, purpose).members, 1, "current_claims");
  }

  // ------------------------------------------------------------------------ main results

  predicate ReportsCounts(pack: Json, included: nat, omitted: nat) {
    && Has(pack, "truncation")
    && Has(Get(pack, "truncation"), "included_counts") && Has(Get(pack, "truncation"), "omitted_counts")
    && Get(Get(pack, "truncation"), "included_counts") == Object([Member("current_claims", Number(included))])
    && Get(Get(pack, "truncation"), "omitted_counts") == Object([Member("current_claims", Number(omitted))])
  }

  /** The reported counts are those of the claims shown and of the claims left out. */
  predicate Counted(pack: Json, total: nat) {
    && Has(pack, "current_claims") && Get(pack, "current_claims").List? && |Get(pack, "current_claims").items| <= total
    && ReportsCounts(pack, |Get(pack, "current_claims").items|, total - |Get(pack, "current_claims").items|)
  }

  /** A returned pack fits its budget, states its own length and a token estimate within the
      requested tokens, carries every mandatory section, and shows exactly the claims before the
      first one that did not fit. */
  lemma PackIsFaithful(p: Projection, bytes: Option<int>, tokens: Option<int>, purpose: Option<string>, labels: Labels,
      result: Result<Json, Failure>)
    requires Answers(p, bytes, tokens, purpose, labels, result) && result.Ok?
    ensures EffectiveBudget(bytes, tokens).Ok? && MandatorySections(p).Ok?
    ensures DescribesItself(result.value) && Length(result.value) <= EffectiveBudget(bytes, tokens).value
    ensures tokens.Some? ==> EstimatedTokens(result.value) <= tokens.value
    ensures
      var m := MandatorySections(p).value;
      var claims := CurrentClaims(p, |p.claims|);
      var packs := Choices(p, m, purpose, EffectiveBudget(bytes, tokens).value, Requested(bytes, tokens, labels));
      var k := Packed(packs, 0, EffectiveBudget(bytes, tokens).value);
      && Has(result.value, "open_conflicts") && Get(result.value, "open_conflicts") == List(m.conflicts)
      && Has(result.value, "decisions") && Get(result.value, "decisions") == List(m.decisions)
      && Has(result.value, "open_questions") && Get(result.value, "open_questions") == List(m.questions)
      && Has(result.value, "work_items") && Get(result.value, "work_items") == List(m.workItems)
      && Has(result.value, "current_claims") && Get(result.value, "current_claims") == List(claims[..k])
  {
    var m := MandatorySections(p).value;
    var budget, requested := EffectiveBudget(bytes, tokens).value, Requested(bytes, tokens, labels);
    var claims := CurrentClaims(p, |p.claims|);
    var base := BasePack(p, m, purpose);
    BaseSections(p, m, purpose);
    var packs := Choices(p, m, purpose, budget, requested);
    var k := Packed(packs, 0, budget);
    PackAt(base, claims, k, budget, requested, packs);
  }

  lemma PackAt(base: Json, claims: seq<Json>, k: nat, budget: int, requested: Requested, packs: seq<Json>)
    requires Candidates(packs, base, claims, budget, requested) && k <= |claims|
    ensures DescribesItself(packs[k])
    ensures Has(packs[k], "open_conflicts") && Get(packs[k], "open_conflicts") == Get(base, "open_conflicts")
    ensures Has(packs[k], "decisions") && Get(packs[k], "decisions") == Get(base, "decisions")
    ensures Has(packs[k], "open_questions") && Get(packs[k], "open_questions") == Get(base, "open_questions")
    ensures Has(packs[k], "work_items") && Get(packs[k], "work_items") == Get(base, "work_items")
    ensures Has(packs[k], "current_claims") && Get(packs[k], "current_claims") == List(claims[..k])
  {
    assert IsAt(packs[k], base, claims, k, budget, requested);
    AtDescribesItself(base, claims, k, budget, requested);
    SectionsShown(base, claims, k, budget, requested, "open_conflicts");
    SectionsShown(base, claims, k, budget, requested, "decisions");
    SectionsShown(base, claims, k, budget, requested, "open_questions");
    SectionsShown(base, claims, k, budget, requested, "work_items");
    SectionsShown(base, claims, k, budget, requested, "current_claims");
  }

  /** The reported counts are those of the shown and the left-out claims. */
  lemma CountsAreReported(p: Projection, bytes: Option<int>, tokens: Option<int>, purpose: Option<string>,
      labels: Labels, result: Result<Json, Failure>)
    requires Answers(p, bytes, tokens, purpose, labels, result) && result.Ok?
    ensures Counted(result.value, |CurrentClaims(p, |p.claims|)|)
  {
    var m := MandatorySections(p).value;
    var budget, requested := EffectiveBudget(bytes, tokens).value, Requested(bytes, tokens, labels);
    BaseSections(p, m, purpose);
    var packs := Choices(p, m, purpose, budget, requested);
    var k := Packed(packs, 0, budget);
    PackCounts(BasePack(p, m, purpose), CurrentClaims(p, |p.claims|), k, budget, requested, packs);
  }

  lemma PackCounts(base: Json, claims: seq<Json>, k: nat, budget: int, requested: Requested, packs: seq<Json>)
    requires Candidates(packs, base, claims, budget, requested) && k <= |claims|
    ensures Counted(packs[k], |claims|)
  {
    assert IsAt(packs[k], base, claims, k, budget, requested);
    AtIsCounted(base, claims, k, budget, requested);
  }

  lemma AtIsCounted(base: Json, claims: seq<Json>, k: nat, budget: int, requested: Requested)
    requires k <= |claims| && HasSections(base)
    ensures Counted(At(base, claims, k, budget, requested), |claims|)
  {
    SectionsShown(base, claims, k, budget, requested, "current_claims");
    CountsAddUp(base, claims, k, budget, requested);
    ShownIsCounted(At(base, claims, k, budget, requested), claims, k);
  }

  lemma ShownIsCounted(pack: Json, claims: seq<Json>, k: nat)
    requires k <= |claims| && Has(pack, "current_claims") && Get(pack, "current_claims") == List(claims[..k])
    requires ReportsCounts(pack, k, |claims| - k)
    ensures Counted(pack, |claims|)
  {}

  /** Every open conflict is listed with the claims of all its members, in member order. */
  lemma {:induction false} EveryOpenConflictIsListed(p: Projection, n: nat, i: nat)
    requires i < n <= |p.conflicts| && p.conflicts[i].status == "OPEN" && OpenConflicts(p, n).Some?
    ensures MemberClaims(p, p.conflicts[i].members).Some?
    ensures ContextConflict(p.conflicts[i], MemberClaims(p, p.conflicts[i].members).value) in OpenConflicts(p, n).value
  {
    if i < n - 1 {
      EveryOpenConflictIsListed(p, n - 1, i);
    }
  }

  lemma {:induction false} EveryMemberIsShown(p: Projection, ids: seq<string>, i: nat)
    requires i < |ids| && MemberClaims(p, ids).Some?
    ensures |MemberClaims(p, ids).value| == |ids|
    ensures FindClaim(p.claims, ids[i]).Some?
    ensures MemberClaims(p, ids).value[i] == ContextClaim(FindClaim(p.claims, ids[i]).value, p.evidence)
  {
    if |ids| > 1 {
      EveryMemberIsShown(p, ids[..|ids| - 1], if i < |ids| - 1 then i else 0);
    }
  }

  /** The claims offered for packing are the ACTIVE ones that no open conflict names. */
  lemma {:induction false} CurrentClaimsAreUnconflicted(p: Projection, n: nat, shown: Json)
    requires n <= |p.claims|
    ensures shown in CurrentClaims(p, n) <==>
              exists i :: 0 <= i < n && p.claims[i].status == "ACTIVE" && !Conflicted(p, p.claims[i].claimId)
                          && shown == ContextClaim(p.claims[i], p.evidence)
  {
    if n > 0 {
      CurrentClaimsAreUnconflicted(p, n - 1, shown);
    }
  }
}
