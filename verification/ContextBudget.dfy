/** Packing current claims under a byte budget while the pack keeps stating its own size. */
module ContextBudget {
  import opened Json
  import opened RenderedSize
  import opened Wrappers
  import HistoryReferences

  /** The names and versions of the rules that a pack declares. */
  datatype Labels = Labels(rule: string, ruleVersion: string, estimator: string, estimatorVersion: string)

  /** The limits as the caller asked for them, and the declared rules. */
  datatype Requested = Requested(bytes: Option<int>, tokens: Option<int>, labels: Labels)

  function OrNull(n: Option<int>): Json {
    match n
    case None => Null
    case Some(value) => Number(value)
  }

  function Truncation(budget: int, requested: Requested, included: nat, omitted: nat, references: seq<Json>): Json {
    Object([
      Member("budget_bytes", Number(budget)),
      Member("estimated_tokens", Number(0)),
      Member("included_counts", Object([Member("current_claims", Number(included))])),
      Member("omitted_counts", Object([Member("current_claims", Number(omitted))])),
      Member("references", List(references)),
      Member("rendered_bytes", Number(0)),
      Member("requested_budget_bytes", OrNull(requested.bytes)),
      Member("requested_budget_tokens", OrNull(requested.tokens)),
      Member("selection_rule", Text(requested.labels.rule)),
      Member("selection_rule_version", Text(requested.labels.ruleVersion)),
      Member("token_estimate_exact", Boolean(false)),
      Member("token_estimator", Text(requested.labels.estimator)),
      Member("token_estimator_version", Text(requested.labels.estimatorVersion)),
      Member("truncated", Boolean(omitted > 0 || references != []))])
  }

  /** The first member with this key is this one. */
  predicate FirstAt(members: seq<Member>, i: nat, m: Member) {
    i < |members| && members[i] == m && forall k :: 0 <= k < i ==> members[k].key != m.key
  }

  /** Metadata whose two sizes are still zero. */
  predicate Unsized(t: Json) {
    && t.Object? && FirstAt(t.members, 1, Member("estimated_tokens", Number(0)))
    && FirstAt(t.members, 5, Member("rendered_bytes", Number(0)))
  }

  lemma TruncationIsUnsized(budget: int, requested: Requested, included: nat, omitted: nat, references: seq<Json>)
    ensures Unsized(Truncation(budget, requested, included, omitted, references))
  {
    var m := Truncation(budget, requested, included, omitted, references).members;
    assert m[3].key[0] == 'o';
  }

  lemma UnsizedHasZeros(t: Json)
    requires Unsized(t)
    ensures Has(t, "rendered_bytes") && Get(t, "rendered_bytes") == Number(0)
    ensures Has(t, "estimated_tokens") && Get(t, "estimated_tokens") == Number(0)
  {
    FirstIndex(t.members, 1, "estimated_tokens");
    FirstIndex(t.members, 5, "rendered_bytes");
  }

  lemma TruncationCounts(budget: int, requested: Requested, included: nat, omitted: nat, references: seq<Json>)
    ensures
      var t := Truncation(budget, requested, included, omitted, references);
      && Has(t, "included_counts") && Has(t, "omitted_counts") && Has(t, "references")
      && Get(t, "included_counts") == Object([Member("current_claims", Number(included))])
      && Get(t, "omitted_counts") == Object([Member("current_claims", Number(omitted))])
      && Get(t, "references") == List(references)
  {
    var m := Truncation(budget, requested, included, omitted, references).members;
    FirstIndex(m, 2, "included_counts");
    FirstIndex(m, 3, "omitted_counts");
    FirstIndex(m, 4, "references");
  }

  // ------------------------------------------------------------------------- sections

  predicate HasSections(pack: Json) {
    && Has(pack, "open_conflicts") && Has(pack, "decisions") && Has(pack, "open_questions")
    && Has(pack, "work_items") && Has(pack, "current_claims") && Has(pack, "truncation")
  }

  function HistoryMentions(pack: Json): seq<HistoryReferences.Reference>
    requires HasSections(pack)
  {
    HistoryReferences.Mentions(Get(pack, "open_conflicts"))
    + HistoryReferences.Mentions(Get(pack, "decisions"))
    + HistoryReferences.Mentions(Get(pack, "open_questions"))
    + HistoryReferences.Mentions(Get(pack, "work_items"))
    + HistoryReferences.Mentions(Get(pack, "current_claims"))
  }

  function ReferenceJson(section: string, omitted: nat, target: string): Json {
    Object([
      Member("omitted_count", Number(omitted)), Member("projection_ref", Text(target)),
          Member("section", Text(section))])
  }

  function HistoryList(table: seq<HistoryReferences.Reference>): seq<Json> {
    seq(|table|, i requires 0 <= i < |table| => ReferenceJson("history", table[i].omitted, table[i].target))
  }

  function References(pack: Json, omitted: nat): seq<Json>
    requires HasSections(pack)
  {
    (if omitted > 0 then [ReferenceJson("current_claims", omitted, "project.json#/claims")] else [])
    + HistoryList(HistoryReferences.Collect(HistoryMentions(pack)))
  }

  /** A document with metadata that has no sizes yet. */
  function WithTruncation(pack: Json, t: Json): (r: Json)
    requires Has(pack, "truncation") && Unsized(t)
    ensures Measured(r) && RenderedBytes(r) == 0 && EstimatedTokens(r) == 0
  {
    UnsizedHasZeros(t);
    GetSet(pack, "truncation", t, "truncation");
    Set(pack, "truncation", t)
  }

  /** What is left out of the document, its sizes still zero. */
  function FreshTruncation(pack: Json, total: nat, included: nat, budget: int, requested: Requested): (t: Json)
    requires HasSections(pack) && included <= total
    ensures Unsized(t)
  {
    var references := References(pack, total - included);
    TruncationIsUnsized(budget, requested, included, total - included, references);
    Truncation(budget, requested, included, total - included, references)
  }

  /** The document with fresh truncation metadata. */
  function Annotated(pack: Json, total: nat, included: nat, budget: int, requested: Requested): (r: Json)
    requires HasSections(pack) && included <= total
    ensures Measured(r) && RenderedBytes(r) == 0 && EstimatedTokens(r) == 0
  {
    WithTruncation(pack, FreshTruncation(pack, total, included, budget, requested))
  }

  /** The same with its sizes settled. */
  function Refreshed(pack: Json, total: nat, included: nat, budget: int, requested: Requested): (r: Json)
    requires HasSections(pack) && included <= total
    ensures Measured(r)
  {
    Stable(Annotated(pack, total, included, budget, requested))
  }

  method RefreshTruncation(pack: Json, total: nat, included: nat, budget: int, requested: Requested) returns (r: Json)
    requires HasSections(pack) && included <= total
    ensures r == Refreshed(pack, total, included, budget, requested)
  {
    var annotated := Annotated(pack, total, included, budget, requested);
    var settled := SetStableRenderedSize(annotated);
    assert settled.Ok?;
    r := settled.value;
  }

  // ------------------------------------------------------------- packs with n claims shown

  function Shown(base: Json, claims: seq<Json>, n: nat): Json
    requires HasSections(base) && n <= |claims|
  {
    Set(base, "current_claims", List(claims[..n]))
  }

  lemma SectionsKept(pack: Json, key: string, value: Json)
    requires HasSections(pack) && Has(pack, key)
    ensures HasSections(Set(pack, key, value))
    ensures forall other ::
        Has(pack, other) && other != key ==>
        Has(Set(pack, key, value), other) && Get(Set(pack, key, value), other) == Get(pack, other)
    ensures Has(Set(pack, key, value), key) && Get(Set(pack, key, value), key) == value
  {
    forall other
      ensures Has(Set(pack, key, value), other) <==> Has(pack, other)
      ensures Has(pack, other) ==> Get(Set(pack, key, value), other) == if other == key then value else Get(pack, other)
    {
      GetSet(pack, key, value, other);
    }
  }

  /** The settled pack showing the first `n` claims. */
  function At(base: Json, claims: seq<Json>, n: nat, budget: int, requested: Requested): (r: Json)
    requires HasSections(base) && n <= |claims|
    ensures Measured(r)
  {
    SectionsKept(base, "current_claims", List(claims[..n]));
    Refreshed(Shown(base, claims, n), |claims|, n, budget, requested)
  }

  /** Settling touches the truncation metadata only. */
  lemma RefreshedIsSet(pack: Json, total: nat, included: nat, budget: int, requested: Requested)
    requires HasSections(pack) && included <= total
    ensures Refreshed(pack, total, included, budget, requested)
         == Set(pack, "truncation", Get(Refreshed(pack, total, included, budget, requested), "truncation"))
  {
    var t := Truncation(budget, requested, included, total - included, References(pack, total - included));
    TruncationIsUnsized(budget, requested, included, total - included, References(pack, total - included));
    UnsizedHasZeros(t);
    GetSet(pack, "truncation", t, "truncation");
    var a := Set(pack, "truncation", t);
    assert a == Annotated(pack, total, included, budget, requested);
    var size := StableSize(Rest(a));
    SizedTruncation(t, size, Quarter(size));
    var u := Set(Set(t, "rendered_bytes", Number(size)), "estimated_tokens", Number(Quarter(size)));
    SetSet(pack, "truncation", t, u);
    GetSet(pack, "truncation", u, "truncation");
  }

  lemma SetAcross(o: Json, a: string, b: string, first: Json, other: Json, second: Json)
    requires a != b && Has(o, a) && Has(o, b)
    ensures Has(Set(o, a, first), b) && Has(Set(Set(o, a, first), b, other), a) && Has(Set(o, a, second), b)
    ensures Set(Set(Set(o, a, first), b, other), a, second) == Set(Set(o, a, second), b, other)
  {
    SetIndex(o, a, first, a);
    SetIndex(o, a, first, b);
    SetIndex(Set(o, a, first), b, other, a);
    SetIndex(o, a, second, b);
  }

  /** Showing another number of claims in a settled pack and settling it again gives the pack
      that would have been built with that number from the start. */
  lemma ReshownIsAt(base: Json, claims: seq<Json>, n: nat, m: nat, budget: int, requested: Requested)
    requires HasSections(base) && n <= |claims| && m <= |claims|
    ensures HasSections(At(base, claims, n, budget, requested))
    ensures HasSections(Shown(At(base, claims, n, budget, requested), claims, m))
    ensures Refreshed(Shown(At(base, claims, n, budget, requested), claims, m), |claims|, m, budget, requested)
         == At(base, claims, m, budget, requested)
  {
    var pack := At(base, claims, n, budget, requested);
    var t := Get(pack, "truncation");
    SectionsKept(base, "current_claims", List(claims[..n]));
    RefreshedIsSet(Shown(base, claims, n), |claims|, n, budget, requested);
    SectionsKept(Shown(base, claims, n), "truncation", t);
    SectionsKept(pack, "current_claims", List(claims[..m]));
    SetAcross(base, "current_claims", "truncation", List(claims[..n]), t, List(claims[..m]));
    var shown := Shown(base, claims, m);
    SectionsKept(base, "current_claims", List(claims[..m]));
    assert Shown(pack, claims, m) == Set(shown, "truncation", t);
    SectionsKept(shown, "truncation", t);
    RefreshedIgnoresTruncation(shown, t, |claims|, m, budget, requested);
  }

  lemma RefreshedIgnoresTruncation(pack: Json, t: Json, total: nat, included: nat, budget: int, requested: Requested)
    requires HasSections(pack) && included <= total
    ensures HasSections(Set(pack, "truncation", t))
    ensures Refreshed(Set(pack, "truncation", t), total, included, budget, requested)
         == Refreshed(pack, total, included, budget, requested)
  {
    SectionsKept(pack, "truncation", t);
    assert HistoryMentions(Set(pack, "truncation", t)) == HistoryMentions(pack);
    SetSet(pack, "truncation", t,
        Truncation(budget, requested, included, total - included, References(pack, total - included)));
  }

  // --------------------------------------------------------------------- greedy packing

  ghost predicate IsAt(pack: Json, base: Json, claims: seq<Json>, n: nat, budget: int, requested: Requested)
    requires HasSections(base) && n <= |claims|
  {
    pack == At(base, claims, n, budget, requested)
  }

  /** The packs with zero, one, two and up to all claims shown. */
  ghost predicate Candidates(packs: seq<Json>, base: Json, claims: seq<Json>, budget: int, requested: Requested) {
    && HasSections(base) && |packs| == |claims| + 1
    && forall n {:trigger IsAt(packs[n], base, claims, n, budget, requested)} ::
         0 <= n <= |claims| ==> IsAt(packs[n], base, claims, n, budget, requested)
  }

  /** How many claims are shown when packing stops at the first that does not fit. */
  function Packed(packs: seq<Json>, n: nat, budget: int): (k: nat)
    requires n < |packs|
    ensures n <= k < |packs|
    ensures forall j :: n < j <= k ==> Length(packs[j]) <= budget
    ensures k + 1 < |packs| ==> Length(packs[k + 1]) > budget
    decreases |packs| - n
  {
    if n + 1 < |packs| && Length(packs[n + 1]) <= budget then Packed(packs, n + 1, budget) else n
  }

  method Reshow(pack: Json, ghost packs: seq<Json>, ghost base: Json, claims: seq<Json>, ghost n: nat, m: nat,
      budget: int, requested: Requested)
    returns (r: Json)
    requires Candidates(packs, base, claims, budget, requested) && n <= |claims| && m <= |claims|
    requires pack == packs[n]
    ensures r == packs[m]
  {
    ReshownIsAt(base, claims, n, m, budget, requested);
    assert IsAt(packs[n], base, claims, n, budget, requested);
    assert IsAt(packs[m], base, claims, m, budget, requested);
    r := Set(pack, "current_claims", List(claims[..m]));
    r := RefreshTruncation(r, |claims|, m, budget, requested);
  }

  method PackGreedily(start: Json, ghost packs: seq<Json>, ghost base: Json, claims: seq<Json>, budget: int,
      requested: Requested)
    returns (pack: Json, included: nat)
    requires Candidates(packs, base, claims, budget, requested) && start == packs[0]
    ensures included == Packed(packs, 0, budget) && pack == packs[included]
  {
    pack, included := start, 0;
    for i := 0 to |claims|
      invariant included == i && pack == packs[included]
      invariant Packed(packs, 0, budget) == Packed(packs, included, budget)
    {
      pack := Reshow(pack, packs, base, claims, i, i + 1, budget, requested);
      included := included + 1;
      if Length(pack) > budget {
        pack := Reshow(pack, packs, base, claims, i + 1, i, budget, requested);
        included := included - 1;
        return;
      }
    }
  }

  /** Dropping claims from the end until the pack fits or none is left. */
  method Shrink(start: Json, shown: nat, ghost packs: seq<Json>, ghost base: Json, claims: seq<Json>, budget: int,
      requested: Requested)
    returns (pack: Json, included: nat)
    requires Candidates(packs, base, claims, budget, requested) && shown <= |claims| && start == packs[shown]
    ensures included <= shown && pack == packs[included]
    ensures included > 0 ==> Length(pack) <= budget
    ensures forall j :: included < j <= shown ==> Length(packs[j]) > budget
  {
    pack, included := start, shown;
    while included > 0 && Length(pack) > budget
      invariant included <= shown && pack == packs[included]
      invariant forall j :: included < j <= shown ==> Length(packs[j]) > budget
    {
      pack := Reshow(pack, packs, base, claims, included, included - 1, budget, requested);
      included := included - 1;
    }
  }

  // ------------------------------------------------------------------- what a pack shows

  /** Every pack that packing could return describes itself. */
  lemma AtDescribesItself(base: Json, claims: seq<Json>, n: nat, budget: int, requested: Requested)
    requires HasSections(base) && n <= |claims|
    ensures DescribesItself(At(base, claims, n, budget, requested))
  {
    SectionsKept(base, "current_claims", List(claims[..n]));
    StableDescribesItself(Annotated(Shown(base, claims, n), |claims|, n, budget, requested));
  }

  lemma StableKeeps(pack: Json, key: string)
    requires Measured(pack) && Has(Get(pack, "truncation"), key) && key != "rendered_bytes" && key != "estimated_tokens"
    ensures Has(Get(Stable(pack), "truncation"), key)
    ensures Get(Get(Stable(pack), "truncation"), key) == Get(Get(pack, "truncation"), key)
  {
    var t, size := Get(pack, "truncation"), StableSize(Rest(pack));
    SizedTruncation(t, size, Quarter(size));
    var u := Set(Set(t, "rendered_bytes", Number(size)), "estimated_tokens", Number(Quarter(size)));
    GetSet(pack, "truncation", u, "truncation");
    SizedTruncationKeeps(t, size, Quarter(size), key);
  }

  /** Settling keeps what the metadata says apart from the two sizes. */
  lemma RefreshedKeeps(pack: Json, total: nat, included: nat, budget: int, requested: Requested, key: string)
    requires HasSections(pack) && included <= total && key != "rendered_bytes" && key != "estimated_tokens"
    requires Has(Truncation(budget, requested, included, total - included, References(pack, total - included)), key)
    ensures
      var t := Truncation(budget, requested, included, total - included, References(pack, total - included));
      var r := Get(Refreshed(pack, total, included, budget, requested), "truncation");
      Has(r, key) && Get(r, key) == Get(t, key)
  {
    var t := Truncation(budget, requested, included, total - included, References(pack, total - included));
    GetSet(pack, "truncation", t, "truncation");
    StableKeeps(Annotated(pack, total, included, budget, requested), key);
  }

  /** The counts in a settled pack add up to all the claims. */
  lemma CountsAddUp(base: Json, claims: seq<Json>, n: nat, budget: int, requested: Requested)
    requires HasSections(base) && n <= |claims|
    ensures
      var t := Get(At(base, claims, n, budget, requested), "truncation");
      && Has(t, "included_counts") && Has(t, "omitted_counts")
      && Get(t, "included_counts") == Object([Member("current_claims", Number(n))])
      && Get(t, "omitted_counts") == Object([Member("current_claims", Number(|claims| - n))])
  {
    var shown := Shown(base, claims, n);
    SectionsKept(base, "current_claims", List(claims[..n]));
    TruncationCounts(budget, requested, n, |claims| - n, References(shown, |claims| - n));
    RefreshedKeeps(shown, |claims|, n, budget, requested, "included_counts");
    RefreshedKeeps(shown, |claims|, n, budget, requested, "omitted_counts");
  }

  /** A settled pack shows the first `n` claims and leaves every other section as it was. */
  lemma SectionsShown(base: Json, claims: seq<Json>, n: nat, budget: int, requested: Requested, key: string)
    requires HasSections(base) && n <= |claims| && Has(base, key) && key != "truncation"
    ensures Has(At(base, claims, n, budget, requested), key)
    ensures Get(At(base, claims, n, budget, requested), key)
         == if key == "current_claims" then List(claims[..n]) else Get(base, key)
  {
    var shown := Shown(base, claims, n);
    SectionsKept(base, "current_claims", List(claims[..n]));
    RefreshedIsSet(shown, |claims|, n, budget, requested);
    GetSet(shown, "truncation", Get(At(base, claims, n, budget, requested), "truncation"), key);
  }
}
