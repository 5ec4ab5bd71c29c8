/** Runs of two commits after which the rebase hint names another operation than the one at which
    the kernel stopped. */
module RebaseExample {
  import opened Wrappers
  import opened Domain
  import opened Utf8
  import opened Rules
  import opened Reducers
  import opened Preconditions
  import opened Ledger
  import opened Rebase
  import opened RebaseApply
  import Prediction

  // ------------------------------------------------------------------------- records

  const STATE: Predicate :=
    Predicate({"system"}, ScalarKind("string"), {}, {}, TimeOptional, One, [SubjectEntityId, PredicateField],
      {OppositePolarity, ExclusiveObject}, 1, {Direct})
  const REGISTRY: Registry := Registry("1.0.0", "guard-dsl@1", map["feature.state@1" := STATE])
  const FAMILY: FamilyKey := FamilyKey([FamilyValue.Text("system:checkout"), FamilyValue.Text("feature.state@1")])
  const ANN: Actor := Actor("user:ann", Human)
  const TEXT: string := "checkout"

  /** The identifiers of one source, four claims and their evidence. */
  datatype Cast = Cast(source: Id, on: Id, off: Id, notOn: Id, stillNotOn: Id, links: seq<Id>)

  ghost predicate Distinct(x: Cast) {
    && x.on != x.off && x.on != x.notOn && x.off != x.notOn && x.stillNotOn !in {x.on, x.off, x.notOn}
    && |x.links| == 4 && forall i, j :: 0 <= i < j < 4 ==> x.links[i] != x.links[j]
  }

  function Content(): seq<byte> {
    Encode(TEXT)
  }

  function SourceText(x: Cast): Source {
    Source(x.source, ContentHash(Content()), Some(Content()), "text/plain")
  }

  /** The checkout is in a state, or is not. */
  function Stating(value: string, polarity: Polarity): Proposition {
    Proposition(EntityRef("system:checkout", "system"), "feature.state@1", ScalarValue("string", value), polarity,
      Scope(None, None, None, None), ValidTime(None, None))
  }

  function ClaimThat(id: Id, value: string, polarity: Polarity): Claim {
    Claim(id, PropositionHash(Stating(value, polarity)), Stating(value, polarity), ANN, "2026-01-01T00:00:00Z")
  }

  function Link(x: Cast, id: Id, claimId: Id): EvidenceLink {
    EvidenceLink(id, claimId, x.source, Selector(0, |Content()|, TEXT, ContentHash(Content())), Direct, "SUPPORTS")
  }

  // -------------------------------------------------------------------------- one step

  /** The tables with a claim and its one link, before conflicts are opened. */
  function Admitted(t: Tables, claim: Claim, link: EvidenceLink): Tables {
    t.(claims := t.claims[claim.claimId := FreshClaimRow(claim)],
       evidence := t.evidence[link.evidenceLinkId := EvidenceRow(claim.claimId, link.sourceRevisionId, link)])
  }

  ghost predicate HasSource(t: Tables, x: Cast) {
    x.source in t.sources && t.sources[x.source].content == Content()
  }

  ghost predicate Admissible(t: Tables, x: Cast, claim: Claim, link: EvidenceLink) {
    && (exists value, polarity :: claim == ClaimThat(claim.claimId, value, polarity))
    && link == Link(x, link.evidenceLinkId, claim.claimId)
    && claim.claimId !in t.claims && link.evidenceLinkId !in t.evidence && HasSource(t, x)
  }

  lemma LinkIsTaken(t: Tables, x: Cast, claimId: Id, link: EvidenceLink)
    requires link == Link(x, link.evidenceLinkId, claimId) && link.evidenceLinkId !in t.evidence && HasSource(t, x)
    ensures InsertLinks(t, [link], claimId)
         == Ok(t.(evidence := t.evidence[link.evidenceLinkId := EvidenceRow(claimId, x.source, link)]))
  {
    assert Content()[..|Content()|] == Content();
    DecodeOfEncode(TEXT);
    assert [link][..0] == [];
  }

  lemma SameFamily(id: Id, value: string, polarity: Polarity)
    ensures FamilyKeyUnder(ClaimThat(id, value, polarity).proposition, STATE) == FAMILY
  {
    assert FamilyKeyUnder(ClaimThat(id, value, polarity).proposition, STATE).values == FAMILY.values;
  }

  lemma ClaimIsTaken(x: Cast, claim: Claim, link: EvidenceLink, value: string, polarity: Polarity)
    requires claim == ClaimThat(claim.claimId, value, polarity) && link == Link(x, link.evidenceLinkId, claim.claimId)
    ensures ClaimError(REGISTRY, claim, [link]).None?
  {
  }

  lemma IsAdmitted(t: Tables, x: Cast, claim: Claim, link: EvidenceLink)
    requires Admissible(t, x, claim, link)
    ensures AdmitClaim(REGISTRY, t, claim, [link]) == Ok(Admitted(t, claim, link))
    ensures claim.proposition.predicateKey == "feature.state@1" && FamilyKeyUnder(claim.proposition, STATE) == FAMILY
  {
    var value, polarity :| claim == ClaimThat(claim.claimId, value, polarity);
    SameFamily(claim.claimId, value, polarity);
    ClaimIsTaken(x, claim, link, value, polarity);
    LinkIsTaken(t.(claims := t.claims[claim.claimId := FreshClaimRow(claim)]), x, claim.claimId, link);
  }

  lemma Asserted(t: Tables, x: Cast, claim: Claim, link: EvidenceLink, step: Step, openedSeq: nat)
    requires Admissible(t, x, claim, link)
    requires OpenConflicts(Admitted(t, claim, link), claim, STATE, {}, openedSeq) == Ok(step)
    ensures ApplyOperation(REGISTRY, ANN, openedSeq, t, AssertClaim(claim, [link]))
         == Ok(Step(step.tables, [ClaimAsserted(claim, [link])] + step.events, step.touched))
  {
    IsAdmitted(t, x, claim, link);
    NewClaimIs(REGISTRY, ANN, t, claim, [link], Admitted(t, claim, link), STATE, step, openedSeq);
  }

  lemma NewClaimIs(registry: Registry, proposer: Actor, t: Tables, claim: Claim, evidence: seq<EvidenceLink>,
      admitted: Tables, def: Predicate, step: Step, openedSeq: nat)
    requires AdmitClaim(registry, t, claim, evidence) == Ok(admitted)
    requires claim.proposition.predicateKey in registry.predicates
    requires registry.predicates[claim.proposition.predicateKey] == def
    requires OpenConflicts(admitted, claim, def, {}, openedSeq) == Ok(step)
    ensures ApplyOperation(registry, proposer, openedSeq, t, AssertClaim(claim, evidence))
         == Ok(Step(step.tables, [ClaimAsserted(claim, evidence)] + step.events, step.touched))
  {}

  /** Which active claims a claim contradicts in each way. */
  ghost predicate Contradicts(claims: map<Id, ClaimRow>, claim: Claim, exclusive: set<Id>, polarity: set<Id>) {
    && Rivals(claims, claim, STATE, {}, ExclusiveValue) == exclusive
    && Rivals(claims, claim, STATE, {}, PolarityClash) == polarity
  }

  lemma OpenedNever(t: Tables, claim: Claim, openedSeq: nat)
    requires Contradicts(t.claims, claim, {}, {})
    ensures OpenConflicts(t, claim, STATE, {}, openedSeq) == Ok(Step(t, [], []))
  {
    var nothing: (seq<Event>, seq<Id>) := ([], []);
    assert nothing.0 + nothing.0 == [] && nothing.1 + nothing.1 == [];
    assert OpenKind(t, claim, STATE, {}, ExclusiveValue, openedSeq) == Ok(Step(t, [], []));
    assert OpenKind(t, claim, STATE, {}, PolarityClash, openedSeq) == Ok(Step(t, [], []));
  }

  /** Asserting a claim that contradicts nothing. */
  lemma AssertedAlone(t: Tables, x: Cast, claim: Claim, link: EvidenceLink, openedSeq: nat)
    requires Admissible(t, x, claim, link) && Contradicts(Admitted(t, claim, link).claims, claim, {}, {})
    ensures ApplyOperation(REGISTRY, ANN, openedSeq, t, AssertClaim(claim, [link]))
         == Ok(Step(Admitted(t, claim, link), [ClaimAsserted(claim, [link])], []))
  {
    OpenedNever(Admitted(t, claim, link), claim, openedSeq);
    Asserted(t, x, claim, link, Step(Admitted(t, claim, link), [], []), openedSeq);
    assert [ClaimAsserted(claim, [link])] + [] == [ClaimAsserted(claim, [link])];
  }

  lemma OpenedOnce(t: Tables, claim: Claim, kind: ConflictKind, rivals: set<Id>, c: Id, row: ConflictRow,
      openedSeq: nat)
    requires rivals != {} && FamilyKeyUnder(claim.proposition, STATE) == FAMILY
    requires Contradicts(t.claims, claim, if kind == ExclusiveValue then rivals else {},
        if kind == PolarityClash then rivals else {})
    requires OpenRow(t.conflicts, FAMILY, kind, rivals + {claim.claimId}, openedSeq) == Ok((c, row))
    ensures OpenConflicts(t, claim, STATE, {}, openedSeq)
         == Ok(Step(t.(conflicts := t.conflicts[c := row]), [ConflictOpened(Document(c, row))], [c]))
  {
    assert [ConflictOpened(Document(c, row))] + [] == [ConflictOpened(Document(c, row))] && [c] + [] == [c];
    assert [] + [ConflictOpened(Document(c, row))] == [ConflictOpened(Document(c, row))] && [] + [c] == [c];
  }

  /** Asserting a claim that contradicts others in one way. */
  lemma AssertedAgainst(t: Tables, x: Cast, claim: Claim, link: EvidenceLink, kind: ConflictKind, rivals: set<Id>,
      c: Id, row: ConflictRow, openedSeq: nat)
    requires Admissible(t, x, claim, link) && rivals != {}
    requires Contradicts(Admitted(t, claim, link).claims, claim, if kind == ExclusiveValue then rivals else {},
        if kind == PolarityClash then rivals else {})
    requires OpenRow(t.conflicts, FAMILY, kind, rivals + {claim.claimId}, openedSeq) == Ok((c, row))
    ensures ApplyOperation(REGISTRY, ANN, openedSeq, t, AssertClaim(claim, [link]))
         == Ok(Step(Admitted(t, claim, link).(conflicts := t.conflicts[c := row]),
              [ClaimAsserted(claim, [link]), ConflictOpened(Document(c, row))], [c]))
  {
    var admitted := Admitted(t, claim, link);
    var step := Step(admitted.(conflicts := t.conflicts[c := row]), [ConflictOpened(Document(c, row))], [c]);
    IsAdmitted(t, x, claim, link);
    OpenedOnce(admitted, claim, kind, rivals, c, row, openedSeq);
    Asserted(t, x, claim, link, step, openedSeq);
    Joined(ClaimAsserted(claim, [link]), ConflictOpened(Document(c, row)));
  }

  lemma Joined(first: Event, second: Event)
    ensures [first] + [second] == [first, second]
  {}

  // ------------------------------------------------------------- who contradicts whom

  type Statement = (string, Polarity)

  /** Active claims by what they say. */
  ghost predicate Say(claims: map<Id, ClaimRow>, said: map<Id, Statement>) {
    claims.Keys == said.Keys && forall c :: c in said ==> claims[c] == FreshClaimRow(ClaimThat(c, said[c].0, said[c].1))
  }

  /** How two statements about the checkout contradict. */
  lemma KindBetween(value: string, polarity: Polarity, other: string, otherPolarity: Polarity)
    ensures KindOfConflict(Stating(value, polarity), Stating(other, otherPolarity), STATE)
         == if value == other && polarity != otherPolarity then Some(PolarityClash)
            else if value != other && polarity == otherPolarity == Positive then Some(ExclusiveValue)
            else None
  {}

  function SayOtherwise(said: map<Id, Statement>, id: Id, value: string, polarity: Polarity): set<Id> {
    set c | c in said && c != id && said[c].0 != value && polarity == said[c].1 == Positive
  }

  function Deny(said: map<Id, Statement>, id: Id, value: string, polarity: Polarity): set<Id> {
    set c | c in said && c != id && said[c].0 == value && polarity != said[c].1
  }

  lemma StatementsContradict(claims: map<Id, ClaimRow>, said: map<Id, Statement>, id: Id, value: string,
      polarity: Polarity)
    requires Say(claims, said)
    ensures Contradicts(claims, ClaimThat(id, value, polarity), SayOtherwise(said, id, value, polarity),
        Deny(said, id, value, polarity))
  {
    SameFamily(id, value, polarity);
    forall c | c in said
      ensures FamilyKeyUnder(claims[c].proposition, STATE) == FAMILY
      ensures KindOfConflict(Stating(value, polarity), claims[c].proposition, STATE)
           == if value == said[c].0 && polarity != said[c].1 then Some(PolarityClash)
              else if value != said[c].0 && polarity == said[c].1 == Positive then Some(ExclusiveValue)
              else None
    {
      SameFamily(c, said[c].0, said[c].1);
      KindBetween(value, polarity, said[c].0, said[c].1);
    }
  }

  lemma OneMoreSays(t: Tables, said: map<Id, Statement>, claim: Claim, link: EvidenceLink, value: string,
      polarity: Polarity)
    requires Say(t.claims, said) && claim == ClaimThat(claim.claimId, value, polarity)
    ensures Say(Admitted(t, claim, link).claims, said[claim.claimId := (value, polarity)])
  {}

  // ------------------------------------------------------------------------ the tables

  function First(x: Cast): Claim { ClaimThat(x.on, "on", Positive) }
  function Second(x: Cast): Claim { ClaimThat(x.off, "off", Positive) }
  function Third(x: Cast): Claim { ClaimThat(x.notOn, "on", Negative) }
  function Fourth(x: Cast): Claim { ClaimThat(x.stillNotOn, "on", Negative) }

  function Support(x: Cast, i: nat, claim: Claim): EvidenceLink
    requires i < |x.links|
  {
    Link(x, x.links[i], claim.claimId)
  }

  /** On against off, and on against not on. */
  function Exclusive(x: Cast): Id { ConflictOf({x.on, x.off}) }
  function Polar(x: Cast): Id { ConflictOf({x.on, x.notOn}) }

  function ExclusiveRow(x: Cast): ConflictRow { FirstRow(FAMILY, ExclusiveValue, {x.on, x.off}, 1) }
  function PolarRow(x: Cast): ConflictRow { FirstRow(FAMILY, PolarityClash, {x.on, x.notOn}, 1) }

  function WithSource(x: Cast): Tables {
    EMPTY_TABLES.(sources := map[x.source := SourceRow(ContentHash(Content()), SourceText(x), Content())])
  }

  function WithFirst(x: Cast): Tables
    requires |x.links| == 4
  {
    Admitted(WithSource(x), First(x), Support(x, 0, First(x)))
  }

  function WithSecond(x: Cast): Tables
    requires |x.links| == 4
  {
    Admitted(WithFirst(x), Second(x), Support(x, 1, Second(x))).(conflicts := map[Exclusive(x) := ExclusiveRow(x)])
  }

  /** Two open conflicts, one of each kind. */
  function Disputed(x: Cast): map<Id, ConflictRow> {
    map[Exclusive(x) := ExclusiveRow(x), Polar(x) := PolarRow(x)]
  }

  function Prepared(x: Cast): Tables
    requires |x.links| == 4
  {
    Admitted(WithSecond(x), Third(x), Support(x, 2, Third(x))).(conflicts := Disputed(x))
  }

  function GrownRow(x: Cast): ConflictRow {
    MergedRow(PolarRow(x), {x.on, x.stillNotOn})
  }

  /** The same after a second denial, which merges into the clash. */
  function Merged(x: Cast): Tables
    requires |x.links| == 4
  {
    Admitted(Prepared(x), Fourth(x), Support(x, 3, Fourth(x))).(conflicts := Disputed(x)[Polar(x) := GrownRow(x)])
  }

  lemma ConflictsDiffer(x: Cast)
    requires Distinct(x)
    ensures Exclusive(x) != Polar(x) && {x.on, x.notOn} + {x.on, x.stillNotOn} != {x.on, x.notOn}
    ensures {x.on, x.off} != {x.on, x.notOn}
  {
    assert x.off in Exclusive(x).firstMembers && x.off !in Polar(x).firstMembers;
    assert x.stillNotOn in {x.on, x.notOn} + {x.on, x.stillNotOn};
  }

  lemma EvidenceSoFar(x: Cast)
    requires Distinct(x)
    ensures WithFirst(x).evidence.Keys == {x.links[0]} && WithSecond(x).evidence.Keys == {x.links[0], x.links[1]}
    ensures Prepared(x).evidence.Keys == {x.links[0], x.links[1], x.links[2]}
    ensures HasSource(WithSource(x), x) && HasSource(WithFirst(x), x) && HasSource(WithSecond(x), x)
    ensures HasSource(Prepared(x), x)
  {}

  function OneSaid(x: Cast): map<Id, Statement> { map[x.on := ("on", Positive)] }
  function TwoSaid(x: Cast): map<Id, Statement> { OneSaid(x)[x.off := ("off", Positive)] }
  function ThreeSaid(x: Cast): map<Id, Statement> { TwoSaid(x)[x.notOn := ("on", Negative)] }
  function FourSaid(x: Cast): map<Id, Statement> { ThreeSaid(x)[x.stillNotOn := ("on", Negative)] }

  lemma WhatTheySay(x: Cast)
    requires |x.links| == 4
    ensures Say(WithFirst(x).claims, OneSaid(x)) && Say(WithSecond(x).claims, TwoSaid(x))
    ensures Say(Prepared(x).claims, ThreeSaid(x)) && Say(Merged(x).claims, FourSaid(x))
  {
    assert Say(WithSource(x).claims, map[]);
    OneMoreSays(WithSource(x), map[], First(x), Support(x, 0, First(x)), "on", Positive);
    OneMoreSays(WithFirst(x), OneSaid(x), Second(x), Support(x, 1, Second(x)), "off", Positive);
    OneMoreSays(WithSecond(x), TwoSaid(x), Third(x), Support(x, 2, Third(x)), "on", Negative);
    OneMoreSays(Prepared(x), ThreeSaid(x), Fourth(x), Support(x, 3, Fourth(x)), "on", Negative);
  }

  lemma WhoSaysOtherwise(x: Cast)
    requires Distinct(x)
    ensures SayOtherwise(OneSaid(x), x.on, "on", Positive) == {} && Deny(OneSaid(x), x.on, "on", Positive) == {}
    ensures SayOtherwise(TwoSaid(x), x.off, "off", Positive) == {x.on} && Deny(TwoSaid(x), x.off, "off", Positive) == {}
    ensures SayOtherwise(ThreeSaid(x), x.notOn, "on", Negative) == {}
    ensures Deny(ThreeSaid(x), x.notOn, "on", Negative) == {x.on}
    ensures SayOtherwise(FourSaid(x), x.stillNotOn, "on", Negative) == {}
    ensures Deny(FourSaid(x), x.stillNotOn, "on", Negative) == {x.on}
  {}

  /** Each claim contradicts the first, in the way it says. */
  lemma FirstAndSecondContradict(x: Cast)
    requires Distinct(x)
    ensures Contradicts(WithFirst(x).claims, First(x), {}, {})
    ensures Contradicts(WithSecond(x).claims, Second(x), {x.on}, {})
  {
    WhatTheySay(x);
    WhoSaysOtherwise(x);
    StatementsContradict(WithFirst(x).claims, OneSaid(x), x.on, "on", Positive);
    StatementsContradict(WithSecond(x).claims, TwoSaid(x), x.off, "off", Positive);
  }

  lemma ThirdAndFourthContradict(x: Cast)
    requires Distinct(x)
    ensures Contradicts(Prepared(x).claims, Third(x), {}, {x.on})
    ensures Contradicts(Merged(x).claims, Fourth(x), {}, {x.on})
  {
    WhatTheySay(x);
    WhoSaysOtherwise(x);
    StatementsContradict(Prepared(x).claims, ThreeSaid(x), x.notOn, "on", Negative);
    StatementsContradict(Merged(x).claims, FourSaid(x), x.stillNotOn, "on", Negative);
  }

  // ------------------------------------------------------------------- the operations

  function Stage(x: Cast): seq<Operation>
    requires |x.links| == 4
  {
    [RegisterSource(SourceText(x)), AssertClaim(First(x), [Support(x, 0, First(x))]),
     AssertClaim(Second(x), [Support(x, 1, Second(x))]), AssertClaim(Third(x), [Support(x, 2, Third(x))])]
  }

  lemma SourceStep(x: Cast)
    requires |x.links| == 4
    ensures ApplyOperation(REGISTRY, ANN, 1, EMPTY_TABLES, Stage(x)[0])
         == Ok(Step(WithSource(x), [SourceRevisionRegistered(SourceText(x))], []))
  {}

  lemma AllAdmissible(x: Cast)
    requires Distinct(x)
    ensures Admissible(WithSource(x), x, First(x), Support(x, 0, First(x)))
    ensures Admissible(WithFirst(x), x, Second(x), Support(x, 1, Second(x)))
    ensures Admissible(WithSecond(x), x, Third(x), Support(x, 2, Third(x)))
    ensures Admissible(Prepared(x), x, Fourth(x), Support(x, 3, Fourth(x)))
  {
    EvidenceSoFar(x);
    ClaimsSoFar(x);
    IsAdmissible(WithSource(x), x, x.on, "on", Positive, x.links[0]);
    IsAdmissible(WithFirst(x), x, x.off, "off", Positive, x.links[1]);
    IsAdmissible(WithSecond(x), x, x.notOn, "on", Negative, x.links[2]);
    IsAdmissible(Prepared(x), x, x.stillNotOn, "on", Negative, x.links[3]);
  }

  lemma IsAdmissible(t: Tables, x: Cast, id: Id, value: string, polarity: Polarity, link: Id)
    requires id !in t.claims && link !in t.evidence && HasSource(t, x)
    ensures Admissible(t, x, ClaimThat(id, value, polarity), Link(x, link, id))
  {}

  lemma ClaimsSoFar(x: Cast)
    requires |x.links| == 4
    ensures WithFirst(x).claims.Keys == {x.on} && WithSecond(x).claims.Keys == {x.on, x.off}
    ensures Prepared(x).claims.Keys == {x.on, x.off, x.notOn}
  {}

  lemma RowsOpened(x: Cast)
    requires Distinct(x)
    ensures OpenRow(map[], FAMILY, ExclusiveValue, {x.on} + {x.off}, 1) == Ok((Exclusive(x), ExclusiveRow(x)))
    ensures OpenRow(map[Exclusive(x) := ExclusiveRow(x)], FAMILY, PolarityClash, {x.on} + {x.notOn}, 1)
         == Ok((Polar(x), PolarRow(x)))
  {
    ConflictsDiffer(x);
    assert {x.on} + {x.off} == {x.on, x.off} && {x.on} + {x.notOn} == {x.on, x.notOn};
  }

  lemma RowMerged(x: Cast)
    requires Distinct(x)
    ensures OpenRow(Disputed(x), FAMILY, PolarityClash, {x.on} + {x.stillNotOn}, 2) == Ok((Polar(x), GrownRow(x)))
  {
    ConflictsDiffer(x);
    assert {x.on} + {x.stillNotOn} == {x.on, x.stillNotOn};
    assert Holds(Disputed(x), Polar(x), FAMILY, PolarityClash, Open);
    assert Find(Disputed(x), FAMILY, PolarityClash, Open) == Some(Polar(x));
  }

  lemma FirstStep(x: Cast)
    requires Distinct(x)
    ensures ApplyOperation(REGISTRY, ANN, 1, WithSource(x), Stage(x)[1])
         == Ok(Step(WithFirst(x), [ClaimAsserted(First(x), [Support(x, 0, First(x))])], []))
  {
    AllAdmissible(x);
    FirstAndSecondContradict(x);
    AssertedAlone(WithSource(x), x, First(x), Support(x, 0, First(x)), 1);
  }

  lemma SecondStep(x: Cast)
    requires Distinct(x)
    ensures ApplyOperation(REGISTRY, ANN, 1, WithFirst(x), Stage(x)[2])
         == Ok(Step(WithSecond(x), [ClaimAsserted(Second(x), [Support(x, 1, Second(x))]),
              ConflictOpened(Document(Exclusive(x), ExclusiveRow(x)))], [Exclusive(x)]))
  {
    AllAdmissible(x);
    RowsOpened(x);
    FirstAndSecondContradict(x);
    AssertedAgainst(WithFirst(x), x, Second(x), Support(x, 1, Second(x)), ExclusiveValue, {x.on}, Exclusive(x),
      ExclusiveRow(x), 1);
  }

  lemma ThirdStep(x: Cast)
    requires Distinct(x)
    ensures ApplyOperation(REGISTRY, ANN, 1, WithSecond(x), Stage(x)[3])
         == Ok(Step(Prepared(x), [ClaimAsserted(Third(x), [Support(x, 2, Third(x))]),
              ConflictOpened(Document(Polar(x), PolarRow(x)))], [Polar(x)]))
  {
    AllAdmissible(x);
    RowsOpened(x);
    ThirdAndFourthContradict(x);
    assert WithSecond(x).conflicts[Polar(x) := PolarRow(x)] == Disputed(x);
    AssertedAgainst(WithSecond(x), x, Third(x), Support(x, 2, Third(x)), PolarityClash, {x.on}, Polar(x), PolarRow(x),
        1);
  }

  lemma FourthStep(x: Cast)
    requires Distinct(x)
    ensures ApplyOperation(REGISTRY, ANN, 2, Prepared(x), AssertClaim(Fourth(x), [Support(x, 3, Fourth(x))]))
         == Ok(Step(Merged(x), [ClaimAsserted(Fourth(x), [Support(x, 3, Fourth(x))]),
              ConflictOpened(Document(Polar(x), GrownRow(x)))], [Polar(x)]))
  {
    AllAdmissible(x);
    RowMerged(x);
    ThirdAndFourthContradict(x);
    AssertedAgainst(Prepared(x), x, Fourth(x), Support(x, 3, Fourth(x)), PolarityClash, {x.on}, Polar(x), GrownRow(x),
        2);
  }

  // --------------------------------------------------------------------- the proposals

  const VERSIONS: Versions :=
    Versions(SCHEMA, "1.0.0", Some(RegistryHash(REGISTRY)), CONFLICT_RULES, "guard-dsl@1", PROJECTION)

  /** The source and the three claims. */
  function Setup(x: Cast): Proposal
    requires |x.links| == 4
  {
    Proposal(Name("proposal_checkout1"), "checkout:setup", ANN, 0, VERSIONS, [], [], Stage(x))
  }

  function Resolving(x: Cast, c: Id, digest: MemberDigest, rejected: Id): Operation
    requires |x.links| == 4
  {
    ResolveConflict(c, digest, Resolution(ANN, {x.on}, {rejected}, [x.links[0]], 1, "on it is"))
  }

  /** Deny once more, which merges into the clash; then resolve the clash as it was before, and the
      other conflict with a digest it never had. Both are pinned at their current versions. */
  function Stale(x: Cast): Proposal
    requires |x.links| == 4
  {
    Proposal(Name("proposal_checkout2"), "checkout:stale", ANN, 1, VERSIONS,
      [AggregateRead(ConflictRecord, Polar(x), 1), AggregateRead(ConflictRecord, Exclusive(x), 1)], [],
      [AssertClaim(Fourth(x), [Support(x, 3, Fourth(x))]),
       Resolving(x, Polar(x), MemberDigest({x.on, x.notOn}), x.notOn),
       Resolving(x, Exclusive(x), MemberDigest({x.on, x.notOn}), x.off)])
  }

  function StageEntry(x: Cast): Entry
    requires |x.links| == 4
  {
    MakeEntry([], Setup(x), Staged(x).events, EMPTY_TABLES, Prepared(x))
  }

  /** The contract admits the two proposals and the ledger entry of the first. */
  ghost predicate Admits(env: Env, x: Cast)
    requires |x.links| == 4
  {
    && env.registry == REGISTRY && env.contract.proposalValid(Setup(x)) && env.contract.proposalValid(Stale(x))
    && env.contract.entryValid(StageEntry(x).document)
  }

  // ------------------------------------------------------------------- the first commit

  lemma NextApplied(registry: Registry, proposer: Actor, openedSeq: nat, t: Tables, ops: seq<Operation>, k: nat,
      before: Step, step: Step)
    requires k < |ops| && ApplyOperations(registry, proposer, openedSeq, t, ops[..k]) == Ok(before)
    requires ApplyOperation(registry, proposer, openedSeq, before.tables, ops[k]) == Ok(step)
    ensures ApplyOperations(registry, proposer, openedSeq, t, ops[..k + 1])
         == Ok(Step(step.tables, before.events + step.events, before.touched + step.touched))
  {
    assert ops[..k + 1][..k] == ops[..k];
  }

  lemma FirstApplied(registry: Registry, proposer: Actor, openedSeq: nat, t: Tables, ops: seq<Operation>, step: Step)
    requires 0 < |ops| && ApplyOperation(registry, proposer, openedSeq, t, ops[0]) == Ok(step)
    ensures ApplyOperations(registry, proposer, openedSeq, t, ops[..1]) == Ok(step)
  {
    assert ops[..0] == [] && [] + step.events == step.events && [] + step.touched == step.touched;
    NextApplied(registry, proposer, openedSeq, t, ops, 0, Step(t, [], []), step);
  }

  /** Four operations in a row. */
  lemma FourApplied(registry: Registry, proposer: Actor, openedSeq: nat, t: Tables, ops: seq<Operation>, a: Step,
      b: Step, c: Step, d: Step)
    requires |ops| == 4 && ApplyOperation(registry, proposer, openedSeq, t, ops[0]) == Ok(a)
    requires ApplyOperation(registry, proposer, openedSeq, a.tables, ops[1]) == Ok(b)
    requires ApplyOperation(registry, proposer, openedSeq, b.tables, ops[2]) == Ok(c)
    requires ApplyOperation(registry, proposer, openedSeq, c.tables, ops[3]) == Ok(d)
    ensures ApplyOperations(registry, proposer, openedSeq, t, ops)
         == Ok(Step(d.tables, a.events + b.events + c.events + d.events, a.touched + b.touched + c.touched + d.touched))
  {
    FirstApplied(registry, proposer, openedSeq, t, ops, a);
    NextApplied(registry, proposer, openedSeq, t, ops, 1, a, b);
    var two := Step(b.tables, a.events + b.events, a.touched + b.touched);
    NextApplied(registry, proposer, openedSeq, t, ops, 2, two, c);
    var three := Step(c.tables, two.events + c.events, two.touched + c.touched);
    NextApplied(registry, proposer, openedSeq, t, ops, 3, three, d);
    assert ops[..4] == ops;
  }

  function Sourced(x: Cast): Step {
    Step(WithSource(x), [SourceRevisionRegistered(SourceText(x))], [])
  }

  function Begun(x: Cast): Step
    requires |x.links| == 4
  {
    Step(WithFirst(x), [ClaimAsserted(First(x), [Support(x, 0, First(x))])], [])
  }

  function Split(x: Cast): Step
    requires |x.links| == 4
  {
    Step(WithSecond(x), [ClaimAsserted(Second(x), [Support(x, 1, Second(x))]),
      ConflictOpened(Document(Exclusive(x), ExclusiveRow(x)))], [Exclusive(x)])
  }

  function Denied(x: Cast): Step
    requires |x.links| == 4
  {
    Step(Prepared(x), [ClaimAsserted(Third(x), [Support(x, 2, Third(x))]),
      ConflictOpened(Document(Polar(x), PolarRow(x)))], [Polar(x)])
  }

  /** Everything the operations of the setup do. */
  function Staged(x: Cast): Step
    requires |x.links| == 4
  {
    Step(Prepared(x), Sourced(x).events + Begun(x).events + Split(x).events + Denied(x).events,
      Sourced(x).touched + Begun(x).touched + Split(x).touched + Denied(x).touched)
  }

  lemma AllStaged(x: Cast)
    requires Distinct(x)
    ensures ApplyOperations(REGISTRY, ANN, 1, EMPTY_TABLES, Stage(x)) == Ok(Staged(x))
  {
    SourceStep(x);
    FirstStep(x);
    SecondStep(x);
    ThirdStep(x);
    FourApplied(REGISTRY, ANN, 1, EMPTY_TABLES, Stage(x), Sourced(x), Begun(x), Split(x), Denied(x));
  }

  lemma {:induction false} NothingRequired(readSet: seq<Read>, ops: seq<Operation>)
    requires forall k :: 0 <= k < |ops| ==> Pinned(ops[k], readSet)
    ensures MissingRead(readSet, ops).None?
    decreases |ops|
  {
    if ops != [] {
      NothingRequired(readSet, ops[..|ops| - 1]);
    }
  }

  /** Operations without references of their own have none that dangles. */
  lemma {:induction false} NothingDangles(registry: Registry, t: Tables, ops: seq<Operation>, n: nat)
    requires n <= |ops| && forall k :: 0 <= k < |ops| ==> References(ops[k]) == []
    ensures OperationsRefsError(registry, t, ops, n).None?
  {
    if n > 0 {
      NothingDangles(registry, t, ops, n - 1);
    }
  }

  /** An operation without typed references that must pin at most a conflict. */
  ghost predicate Pinned(op: Operation, readSet: seq<Read>) {
    || op.RegisterSource? || op.AssertClaim?
    || (op.ResolveConflict? && Pins(readSet, Target(ConflictRecord, op.conflictId)))
  }

  /** A proposal in these versions, with satisfied reads, all that it must pin pinned, and no references. */
  lemma IsChecked(env: Env, t: Tables, p: Proposal, ops: seq<Operation>)
    requires env.registry == REGISTRY && env.contract.proposalValid(p) && p.versions == VERSIONS && p.operations == ops
    requires forall k :: 0 <= k < |ops| ==> Pinned(ops[k], p.readSet)
    requires ReadsAndGuardsError(REGISTRY, t, p).None?
    ensures Ledger.CheckProposal(env, t, p).None?
  {
    NothingRequired(p.readSet, ops);
    NothingDangles(env.registry, t, ops, |ops|);
  }

  /** The state after the first commit. */
  ghost predicate IsStaged(x: Cast, state: State)
    requires |x.links| == 4
  {
    && state.tables == Prepared(x) && |state.ledger| == 1
    && |state.receipts| == 1 && state.receipts[0].key == "checkout:setup"
  }

  lemma IsEvaluated(env: Env, state: State, p: Proposal, r: Result<Step, Failure>)
    requires Ledger.CheckProposal(env, state.tables, p).None?
    requires r == ApplyOperations(env.registry, p.proposer, |state.ledger| + 1, state.tables, p.operations)
    requires r.Ok? ==>
        env.contract.entryValid(MakeEntry(state.ledger, p, r.value.events, state.tables, r.value.tables).document)
    ensures
      match r
      case Err(failure) => Evaluate(env, state, p) == Err(failure)
      case Ok(step) =>
        Evaluate(env, state, p) == Ok(Accepted(step.tables,
            MakeEntry(state.ledger, p, step.events, state.tables, step.tables), Prediction.Ids(step.touched)))
  {}

  /** A first commit with nothing in its way. */
  ghost predicate Succeeds(env: Env, start: State, p: Proposal, step: Step) {
    && FirstByKey(start.receipts, p.idempotencyKey).None? && Ledger.CheckProposal(env, start.tables, p).None?
    && ApplyOperations(env.registry, p.proposer, |start.ledger| + 1, start.tables, p.operations) == Ok(step)
    && env.contract.entryValid(MakeEntry(start.ledger, p, step.events, start.tables, step.tables).document)
  }

  /** What a commit that accepts leaves. */
  ghost predicate Follows(start: State, p: Proposal, tables: Tables, state: State) {
    && state.tables == tables && |state.ledger| == |start.ledger| + 1
    && |state.receipts| == |start.receipts| + 1 && state.receipts[|start.receipts|].key == p.idempotencyKey
  }

  lemma IsAccepted(env: Env, start: State, p: Proposal, accepted: Accepted)
    requires FirstByKey(start.receipts, p.idempotencyKey).None? && Evaluate(env, start, p) == Ok(accepted)
    ensures Follows(start, p, accepted.tables, Commit(env, start, Encoded(p, false, false)).0)
  {
    assert Commit(env, start, Encoded(p, false, false)) == Accept(env, start, Encoded(p, false, false), accepted);
  }

  lemma RunOnce(env: Env, start: State, s: Submission)
    ensures Run(env, start, [s]) == Commit(env, start, s).0
  {
    assert [s][..0] == [];
  }

  lemma Runs(env: Env, start: State, p: Proposal, step: Step)
    requires Succeeds(env, start, p, step)
    ensures Follows(start, p, step.tables, Run(env, start, [Encoded(p, false, false)]))
  {
    IsEvaluated(env, start, p, Ok(step));
    IsAccepted(env, start, p, Accepted(step.tables,
      MakeEntry(start.ledger, p, step.events, start.tables, step.tables), Prediction.Ids(step.touched)));
    RunOnce(env, start, Encoded(p, false, false));
  }

  lemma NoReads(registry: Registry, t: Tables, p: Proposal)
    requires p.readSet == [] && p.guards == []
    ensures ReadsAndGuardsError(registry, t, p).None?
  {}

  lemma SetupIsPinned(x: Cast, ops: seq<Operation>)
    requires |x.links| == 4 && ops == Stage(x)
    ensures forall k :: 0 <= k < |ops| ==> Pinned(ops[k], [])
  {}

  lemma SetupIsChecked(env: Env, x: Cast)
    requires Distinct(x) && Admits(env, x)
    ensures Ledger.CheckProposal(env, EMPTY_TABLES, Setup(x)).None?
  {
    NoReads(REGISTRY, EMPTY_TABLES, Setup(x));
    SetupIsPinned(x, Stage(x));
    IsChecked(env, EMPTY_TABLES, Setup(x), Stage(x));
  }

  lemma NoReceipts(receipts: seq<Receipt>, key: string)
    requires receipts == []
    ensures FirstByKey(receipts, key).None?
  {}

  lemma SucceedsAtStart(env: Env, start: State, p: Proposal, step: Step, openedSeq: nat)
    requires start.receipts == [] && openedSeq == |start.ledger| + 1
    requires Ledger.CheckProposal(env, start.tables, p).None?
    requires ApplyOperations(env.registry, p.proposer, openedSeq, start.tables, p.operations) == Ok(step)
    requires env.contract.entryValid(MakeEntry(start.ledger, p, step.events, start.tables, step.tables).document)
    ensures Succeeds(env, start, p, step)
  {
    NoReceipts(start.receipts, p.idempotencyKey);
  }

  lemma SetupSucceeds(env: Env, x: Cast)
    requires Distinct(x) && Admits(env, x)
    ensures Succeeds(env, EMPTY_STATE, Setup(x), Staged(x))
  {
    SetupIsChecked(env, x);
    AllStaged(x);
    SucceedsAtStart(env, EMPTY_STATE, Setup(x), Staged(x), 1);
  }

  lemma SetupCommits(env: Env, x: Cast, start: State, p: Proposal, step: Step)
    requires |x.links| == 4 && start == EMPTY_STATE && p.idempotencyKey == "checkout:setup"
    requires Succeeds(env, start, p, step) && step.tables == Prepared(x)
    ensures IsStaged(x, Run(env, start, [Encoded(p, false, false)]))
  {
    Runs(env, start, p, step);
  }

  // ------------------------------------------------------------------ the second commit

  lemma StaleIsPinned(x: Cast)
    requires |x.links| == 4
    ensures
      var p := Stale(x);
      forall k :: 0 <= k < |p.operations| ==> Pinned(p.operations[k], p.readSet)
  {
    var p := Stale(x);
    assert p.readSet[0].aggregateId == Polar(x) && p.readSet[1].aggregateId == Exclusive(x);
  }

  lemma ReadsPass(registry: Registry, t: Tables, p: Proposal, c: Id, d: Id)
    requires c in t.conflicts && t.conflicts[c].version == 1 && d in t.conflicts && t.conflicts[d].version == 1
    requires p.readSet == [AggregateRead(ConflictRecord, c, 1), AggregateRead(ConflictRecord, d, 1)] && p.guards == []
    ensures ReadsAndGuardsError(registry, t, p).None?
  {
    assert p.readSet[..1] == [AggregateRead(ConflictRecord, c, 1)];
    assert p.readSet[..1][..0] == [];
  }

  lemma StaleReadsPass(x: Cast)
    requires Distinct(x)
    ensures ReadsAndGuardsError(REGISTRY, Prepared(x), Stale(x)).None?
  {
    ConflictsDiffer(x);
    ReadsPass(REGISTRY, Prepared(x), Stale(x), Polar(x), Exclusive(x));
  }

  lemma StaleIsChecked(env: Env, x: Cast)
    requires Distinct(x) && Admits(env, x)
    ensures Ledger.CheckProposal(env, Prepared(x), Stale(x)).None?
  {
    StaleIsPinned(x);
    StaleReadsPass(x);
    IsChecked(env, Prepared(x), Stale(x), Stale(x).operations);
  }

  lemma MisstatedDigestStops(registry: Registry, proposer: Actor, openedSeq: nat, t: Tables, op: Operation)
    requires op.ResolveConflict? && op.conflictId in t.conflicts && t.conflicts[op.conflictId].status == Open
    requires t.conflicts[op.conflictId].memberDigest != op.expectedMemberDigest
    ensures ApplyOperation(registry, proposer, openedSeq, t, op) == Err(Failure.Stale(ConflictMemberDigestMismatch))
  {}

  lemma StopsAtSecond(registry: Registry, proposer: Actor, openedSeq: nat, t: Tables, ops: seq<Operation>, step: Step,
      code: Code)
    requires |ops| > 1 && ApplyOperation(registry, proposer, openedSeq, t, ops[0]) == Ok(step)
    requires ApplyOperation(registry, proposer, openedSeq, step.tables, ops[1]) == Err(Failure.Stale(code))
    ensures StopsAt(registry, proposer, openedSeq, t, ops, 1, code)
  {
    FirstApplied(registry, proposer, openedSeq, t, ops, step);
  }

  /** The kernel applies the denial and stops at the resolution after it. */
  lemma StopsAtFirstResolution(x: Cast)
    requires Distinct(x)
    ensures StopsAt(REGISTRY, ANN, 2, Prepared(x), Stale(x).operations, 1, ConflictMemberDigestMismatch)
  {
    FourthStep(x);
    ConflictsDiffer(x);
    MisstatedDigestStops(REGISTRY, ANN, 2, Merged(x), Stale(x).operations[1]);
    StopsAtSecond(REGISTRY, ANN, 2, Prepared(x), Stale(x).operations,
      ApplyOperation(REGISTRY, ANN, 2, Prepared(x), AssertClaim(Fourth(x), [Support(x, 3, Fourth(x))])).value,
      ConflictMemberDigestMismatch);
  }

  lemma {:induction false} FailureStays(registry: Registry, proposer: Actor, openedSeq: nat, t: Tables,
      ops: seq<Operation>, k: nat, n: nat, failure: Failure)
    requires k <= n <= |ops| && ApplyOperations(registry, proposer, openedSeq, t, ops[..k]) == Err(failure)
    ensures ApplyOperations(registry, proposer, openedSeq, t, ops[..n]) == Err(failure)
    decreases n
  {
    if k < n {
      FailureStays(registry, proposer, openedSeq, t, ops, k, n - 1, failure);
      assert ops[..n][..n - 1] == ops[..n - 1];
    }
  }

  lemma StopEndsAll(registry: Registry, proposer: Actor, openedSeq: nat, t: Tables, ops: seq<Operation>, k: nat,
      code: Code)
    requires StopsAt(registry, proposer, openedSeq, t, ops, k, code)
    ensures ApplyOperations(registry, proposer, openedSeq, t, ops) == Err(Failure.Stale(code))
  {
    assert ops[..k + 1][..k] == ops[..k];
    FailureStays(registry, proposer, openedSeq, t, ops, k + 1, |ops|, Failure.Stale(code));
    assert ops[..|ops|] == ops;
  }

  lemma DigestStated(t: Tables, op: Operation, row: ConflictRow)
    requires op.ResolveConflict? && op.conflictId in t.conflicts && t.conflicts[op.conflictId] == row
    ensures Misstates(t, op, ConflictMemberDigestMismatch) <==> row.memberDigest != op.expectedMemberDigest
  {}

  lemma ThirdIsSeen(t: Tables, a: Operation, b: Operation, c: Operation, code: Code)
    requires !Misstates(t, a, code) && !Misstates(t, b, code) && Misstates(t, c, code)
    ensures FirstSeen(t, [a, b, c], 2, code)
  {}

  lemma OnlySecondDigestDiffers(x: Cast)
    requires Distinct(x)
    ensures FirstSeen(Prepared(x), Stale(x).operations, 2, ConflictMemberDigestMismatch)
  {
    var t, code := Prepared(x), ConflictMemberDigestMismatch;
    var denial := AssertClaim(Fourth(x), [Support(x, 3, Fourth(x))]);
    var first := Resolving(x, Polar(x), MemberDigest({x.on, x.notOn}), x.notOn);
    var second := Resolving(x, Exclusive(x), MemberDigest({x.on, x.notOn}), x.off);
    ConflictsDiffer(x);
    DigestStated(t, first, PolarRow(x));
    DigestStated(t, second, ExclusiveRow(x));
    ThirdIsSeen(t, denial, first, second, code);
  }

  lemma IsRejected(env: Env, state: State, p: Proposal, code: Code)
    requires FirstByKey(state.receipts, p.idempotencyKey).None?
    requires Evaluate(env, state, p) == Err(Failure.Stale(code))
    ensures
      var (after, receipt) := Commit(env, state, Encoded(p, false, false));
      after.tables == state.tables && receipt.outcome == TransactionConflict && receipt.reasons == [code]
  {
    assert Commit(env, state, Encoded(p, false, false))
        == Reject(env, state, Encoded(p, false, false), Failure.Stale(code));
  }

  lemma StopIsRejected(env: Env, state: State, p: Proposal, k: nat, code: Code)
    requires FirstByKey(state.receipts, p.idempotencyKey).None?
    requires Ledger.CheckProposal(env, state.tables, p).None?
    requires StopsAt(env.registry, p.proposer, |state.ledger| + 1, state.tables, p.operations, k, code)
    ensures
      var (after, receipt) := Commit(env, state, Encoded(p, false, false));
      after.tables == state.tables && receipt.outcome == TransactionConflict && receipt.reasons == [code]
  {
    StopEndsAll(env.registry, p.proposer, |state.ledger| + 1, state.tables, p.operations, k, code);
    IsEvaluated(env, state, p, Err(Failure.Stale(code)));
    IsRejected(env, state, p, code);
  }

  /** The kernel stops at operation `k`, the receipt says so, and the hint names operation `i`. */
  ghost predicate Misled(env: Env, state: State, p: Proposal, k: nat, i: nat, code: Code) {
    var (after, receipt) := Commit(env, state, Encoded(p, false, false));
    && receipt.outcome == TransactionConflict && receipt.reasons == [code]
    && StopsAt(env.registry, p.proposer, |state.ledger| + 1, state.tables, p.operations, k, code)
    && Names(BuildHint(env.registry, after.tables, p, code), i, code)
  }

  lemma IsMisled(env: Env, state: State, p: Proposal, k: nat, i: nat, code: Code)
    requires FirstByKey(state.receipts, p.idempotencyKey).None?
    requires Ledger.CheckProposal(env, state.tables, p).None?
    requires StopsAt(env.registry, p.proposer, |state.ledger| + 1, state.tables, p.operations, k, code)
    requires FirstSeen(state.tables, p.operations, i, code)
    ensures Misled(env, state, p, k, i, code)
  {
    StopIsRejected(env, state, p, k, code);
    NamesFirstSeen(env.registry, state.tables, p, i, code);
  }

  lemma StaleIsMisled(env: Env, x: Cast, state: State, p: Proposal)
    requires Distinct(x) && Admits(env, x) && IsStaged(x, state) && p == Stale(x)
    ensures Misled(env, state, p, 1, 2, ConflictMemberDigestMismatch)
  {
    StaleIsUnknown(x, state, p);
    StaleIsChecked(env, x);
    StopsAtFirstResolution(x);
    OnlySecondDigestDiffers(x);
    IsMisled(env, state, p, 1, 2, ConflictMemberDigestMismatch);
  }

  lemma StaleIsUnknown(x: Cast, state: State, p: Proposal)
    requires |x.links| == 4 && IsStaged(x, state) && p == Stale(x)
    ensures FirstByKey(state.receipts, p.idempotencyKey).None?
  {}

  /** A run on which the hint misleads, whatever the identifiers are: the kernel stops at the resolution of
      the first conflict and the receipt says so, the hint names the resolution of the second. */
  lemma HintNamesAnotherOperation(env: Env, x: Cast, state: State)
    requires Distinct(x) && Admits(env, x) && state == Run(env, EMPTY_STATE, [Encoded(Setup(x), false, false)])
    ensures Misled(env, state, Stale(x), 1, 2, ConflictMemberDigestMismatch)
  {
    SetupSucceeds(env, x);
    SetupCommits(env, x, EMPTY_STATE, Setup(x), Staged(x));
    StaleIsMisled(env, x, state, Stale(x));
  }

  /** Identifiers, keys and actors that the shipped schema admits. */
  const CAST: Cast := Cast(Name("source_checkout01"), Name("claim_checkout_on"), Name("claim_checkout_off"),
    Name("claim_checkout_not_on"), Name("claim_checkout_still_not_on"),
    [Name("evidence_checkout1"), Name("evidence_checkout2"), Name("evidence_checkout3"), Name("evidence_checkout4")])

  lemma CastIsDistinct()
    ensures Distinct(CAST)
  {}
}
