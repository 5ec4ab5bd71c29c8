/** No silent contradiction: active claims that contradict each other are always named
    together by a conflict. */
module Disclosure {
  import opened Wrappers
  import opened Domain
  import opened Rules
  import opened Reducers
  import opened Ledger
  import opened Invariant
  import opened Refinement
  import opened Sequences
  import Continuity
  import Prediction
  import R = Replay

  /** Two active claims of one family that contradict each other. */
  ghost predicate Opposed(registry: Registry, claims: map<Id, ClaimRow>, a: Id, b: Id, kind: ConflictKind) {
    && a in claims && b in claims && a != b
    && claims[a].status == Active && claims[b].status == Active
    && Known(registry, claims[a].proposition)
    && var def := registry.predicates[claims[a].proposition.predicateKey];
    && FamilyKeyUnder(claims[b].proposition, def) == OwnFamily(registry, claims[a].proposition)
    && KindOfConflict(claims[a].proposition, claims[b].proposition, def) == Some(kind)
  }

  ghost predicate ResolvedIn(events: seq<Event>, c: Id) {
    exists j :: 0 <= j < |events| && events[j].ConflictResolved? && events[j].conflictId == c
  }

  /** Event `i` opened conflict `c` naming both claims; unless `c` was resolved since, it is
      open and both are members now. */
  ghost predicate NamedBy(conflicts: map<Id, ConflictRow>, h: seq<Event>, pair: set<Id>, family: FamilyKey,
      kind: ConflictKind, c: Id, i: nat) {
    && c in conflicts && Matches(conflicts[c], family, kind)
    && i < |h| && h[i].ConflictOpened? && h[i].conflict.conflictId == c && pair <= h[i].conflict.members
    && (!ResolvedIn(h[i..], c) ==> conflicts[c].status == Open && pair <= conflicts[c].members)
  }

  ghost predicate Disclosed(conflicts: map<Id, ConflictRow>, h: seq<Event>, pair: set<Id>, family: FamilyKey,
      kind: ConflictKind) {
    exists c, i :: NamedBy(conflicts, h, pair, family, kind, c, i)
  }

  ghost predicate AllDisclosed(registry: Registry, t: Tables, h: seq<Event>, except: set<Id>) {
    forall a, b, kind :: Opposed(registry, t.claims, a, b, kind) && a !in except && b !in except ==>
      Disclosed(t.conflicts, h, {a, b}, OwnFamily(registry, t.claims[a].proposition), kind)
  }

  // ------------------------------------------------------- how conflict rows evolve

  ghost predicate Evolves(before: map<Id, ConflictRow>, after: map<Id, ConflictRow>, events: seq<Event>) {
    forall c :: c in before ==>
      && c in after && Matches(after[c], before[c].familyKey, before[c].kind)
      && (before[c].status == Open && !ResolvedIn(events, c) ==>
          after[c].status == Open && before[c].members <= after[c].members)
  }

  lemma EvolvesTransitive(a: map<Id, ConflictRow>, b: map<Id, ConflictRow>, c: map<Id, ConflictRow>, first: seq<Event>,
      second: seq<Event>)
    requires Evolves(a, b, first) && Evolves(b, c, second)
    ensures Evolves(a, c, first + second)
  {
    forall d | d in a && !ResolvedIn(first + second, d)
      ensures !ResolvedIn(first, d) && !ResolvedIn(second, d)
    {
      ResolvedInAppend(first, second, d);
    }
  }

  lemma ResolvedInAppend(first: seq<Event>, second: seq<Event>, c: Id)
    ensures ResolvedIn(first + second, c) <==> ResolvedIn(first, c) || ResolvedIn(second, c)
  {
    var all := first + second;
    if j :| 0 <= j < |first| && first[j].ConflictResolved? && first[j].conflictId == c {
      assert all[j] == first[j];
    }
    if j :| 0 <= j < |second| && second[j].ConflictResolved? && second[j].conflictId == c {
      assert all[|first| + j] == second[j];
    }
  }

  lemma NamedStays(before: map<Id, ConflictRow>, after: map<Id, ConflictRow>, h: seq<Event>, events: seq<Event>,
                   pair: set<Id>, family: FamilyKey, kind: ConflictKind)
    requires Evolves(before, after, events) && Disclosed(before, h, pair, family, kind)
    ensures Disclosed(after, h + events, pair, family, kind)
  {
    var c: Id, i: nat :| NamedBy(before, h, pair, family, kind, c, i);
    assert (h + events)[i] == h[i];
    assert (h + events)[i..] == h[i..] + events;
    ResolvedInAppend(h[i..], events, c);
    assert NamedBy(after, h + events, pair, family, kind, c, i);
  }

  /** An open row that was just recorded names every pair of its members. */
  lemma OpenedRowNames(conflicts: map<Id, ConflictRow>, c: Id, h: seq<Event>, pair: set<Id>)
    requires c in conflicts && conflicts[c].status == Open && pair <= conflicts[c].members
    ensures Disclosed(conflicts, h + [ConflictOpened(Document(c, conflicts[c]))], pair, conflicts[c].familyKey,
        conflicts[c].kind)
  {
    var e := ConflictOpened(Document(c, conflicts[c]));
    assert (h + [e])[|h|] == e && (h + [e])[|h|..] == [e];
    assert NamedBy(conflicts, h + [e], pair, conflicts[c].familyKey, conflicts[c].kind, c, |h|);
  }

  /** Opening for one kind of contradiction names the incoming claim with each of its rivals. */
  lemma OpenKindDiscloses(registry: Registry, t: Tables, incoming: Claim, ignored: set<Id>, kind: ConflictKind,
      openedSeq: nat, h: seq<Event>)
    requires FamiliesNamePredicate(registry) && R.Sound(registry, t)
    requires incoming.claimId in t.claims && t.claims[incoming.claimId].proposition == incoming.proposition
    requires ConflictOf(R.MembersOf(registry, t, incoming, ignored, kind)) !in t.conflicts
    ensures
      var def := registry.predicates[incoming.proposition.predicateKey];
      var r := OpenKind(t, incoming, def, ignored, kind, openedSeq);
      && r.Ok? && Evolves(t.conflicts, r.value.tables.conflicts, r.value.events)
      && forall b :: b in Rivals(t.claims, incoming, def, ignored, kind) ==>
           Disclosed(r.value.tables.conflicts, h + r.value.events, {incoming.claimId, b},
               OwnFamily(registry, incoming.proposition), kind)
  {
    var def := registry.predicates[incoming.proposition.predicateKey];
    var rivals := Rivals(t.claims, incoming, def, ignored, kind);
    if rivals != {} {
      R.RivalsShareFamily(registry, t.claims, incoming, ignored, kind);
      RowDiscloses(registry, t, OwnFamily(registry, incoming.proposition), kind, incoming.claimId, rivals, openedSeq,
          h);
    }
  }

  lemma RowDiscloses(registry: Registry, t: Tables, family: FamilyKey, kind: ConflictKind, a: Id, rivals: set<Id>,
      openedSeq: nat, h: seq<Event>)
    requires R.Sound(registry, t) && R.OneFamily(registry, t.claims, rivals + {a}, family)
        && ConflictOf(rivals + {a}) !in t.conflicts
    ensures
      var r := OpenRow(t.conflicts, family, kind, rivals + {a}, openedSeq);
      && r.Ok?
      && var (c, row) := r.value;
      && Evolves(t.conflicts, t.conflicts[c := row], [ConflictOpened(Document(c, row))])
      && forall b :: b in rivals ==>
           Disclosed(t.conflicts[c := row], h + [ConflictOpened(Document(c, row))], {a, b}, family, kind)
  {
    R.OpenRowSound(registry, t, family, kind, rivals + {a}, openedSeq);
    var (c, row) := OpenRow(t.conflicts, family, kind, rivals + {a}, openedSeq).value;
    RecordedRowNames(t.conflicts, c, row, h, a, rivals);
  }

  lemma RecordedRowNames(conflicts: map<Id, ConflictRow>, c: Id, row: ConflictRow, h: seq<Event>, a: Id,
      rivals: set<Id>)
    requires row.status == Open && rivals + {a} <= row.members
    ensures forall b :: b in rivals ==>
              Disclosed(conflicts[c := row], h + [ConflictOpened(Document(c, row))], {a, b}, row.familyKey, row.kind)
  {
    forall b | b in rivals
      ensures Disclosed(conflicts[c := row], h + [ConflictOpened(Document(c, row))], {a, b}, row.familyKey, row.kind)
    {
      OpenedRowNames(conflicts[c := row], c, h, {a, b});
    }
  }

  lemma AllStayDisclosed(before: map<Id, ConflictRow>, after: map<Id, ConflictRow>, h: seq<Event>, more: seq<Event>,
      ids: set<Id>, a: Id, family: FamilyKey, kind: ConflictKind)
    requires Evolves(before, after, more)
    requires forall b :: b in ids ==> Disclosed(before, h, {a, b}, family, kind)
    ensures forall b :: b in ids ==> Disclosed(after, h + more, {a, b}, family, kind)
  {
    forall b | b in ids
      ensures Disclosed(after, h + more, {a, b}, family, kind)
    {
      NamedStays(before, after, h, more, {a, b}, family, kind);
    }
  }

  /** The two kinds in turn, each disclosing its own rivals. */
  lemma OpeningSteps(registry: Registry, t: Tables, incoming: Claim, ignored: set<Id>, openedSeq: nat, h: seq<Event>)
      returns (first: Step, second: Step)
    requires FamiliesNamePredicate(registry) && R.Sound(registry, t)
    requires incoming.claimId in t.claims && t.claims[incoming.claimId].proposition == incoming.proposition
    requires forall c :: c in t.conflicts && c.ConflictOf? ==> incoming.claimId !in c.firstMembers
    ensures
      var def, family := registry.predicates[incoming.proposition.predicateKey],
          OwnFamily(registry, incoming.proposition);
      && OpenConflicts(t, incoming, def, ignored, openedSeq)
          == Ok(Step(second.tables, first.events + second.events, first.touched + second.touched))
      && Evolves(t.conflicts, first.tables.conflicts, first.events)
      && Evolves(first.tables.conflicts, second.tables.conflicts, second.events)
      && (forall b :: b in Rivals(t.claims, incoming, def, ignored, ExclusiveValue) ==>
            Disclosed(first.tables.conflicts, h + first.events, {incoming.claimId, b}, family, ExclusiveValue))
      && (forall b :: b in Rivals(t.claims, incoming, def, ignored, PolarityClash) ==>
            Disclosed(second.tables.conflicts, h + first.events + second.events, {incoming.claimId, b}, family,
                PolarityClash))
  {
    var def := registry.predicates[incoming.proposition.predicateKey];
    SecondKindIsFresh(registry, t, incoming, ignored, openedSeq);
    R.OpenKindSound(registry, t, incoming, ignored, ExclusiveValue, openedSeq);
    OpenKindDiscloses(registry, t, incoming, ignored, ExclusiveValue, openedSeq, h);
    first := OpenKind(t, incoming, def, ignored, ExclusiveValue, openedSeq).value;
    OpenKindDiscloses(registry, first.tables, incoming, ignored, PolarityClash, openedSeq, h + first.events);
    second := OpenKind(first.tables, incoming, def, ignored, PolarityClash, openedSeq).value;
  }

  lemma OpenConflictsDisclose(registry: Registry, t: Tables, incoming: Claim, ignored: set<Id>, openedSeq: nat,
      h: seq<Event>)
    requires FamiliesNamePredicate(registry) && R.Sound(registry, t)
    requires incoming.claimId in t.claims && t.claims[incoming.claimId].proposition == incoming.proposition
    requires forall c :: c in t.conflicts && c.ConflictOf? ==> incoming.claimId !in c.firstMembers
    ensures
      var def := registry.predicates[incoming.proposition.predicateKey];
      var r := OpenConflicts(t, incoming, def, ignored, openedSeq);
      && r.Ok? && Evolves(t.conflicts, r.value.tables.conflicts, r.value.events)
      && forall b, kind :: b in Rivals(t.claims, incoming, def, ignored, kind) ==>
           Disclosed(r.value.tables.conflicts, h + r.value.events, {incoming.claimId, b},
               OwnFamily(registry, incoming.proposition), kind)
  {
    var def, family := registry.predicates[incoming.proposition.predicateKey],
        OwnFamily(registry, incoming.proposition);
    var first, second := OpeningSteps(registry, t, incoming, ignored, openedSeq, h);
    EvolvesTransitive(t.conflicts, first.tables.conflicts, second.tables.conflicts, first.events, second.events);
    assert h + (first.events + second.events) == h + first.events + second.events;
    AllStayDisclosed(first.tables.conflicts, second.tables.conflicts, h + first.events, second.events,
      Rivals(t.claims, incoming, def, ignored, ExclusiveValue), incoming.claimId, family, ExclusiveValue);
  }

  lemma OpposedSymmetric(registry: Registry, claims: map<Id, ClaimRow>, a: Id, b: Id, kind: ConflictKind)
    requires FamiliesNamePredicate(registry) && Opposed(registry, claims, a, b, kind)
    ensures Opposed(registry, claims, b, a, kind)
    ensures OwnFamily(registry, claims[a].proposition) == OwnFamily(registry, claims[b].proposition)
  {
    FamilyDeterminesPredicate(registry, claims[a].proposition, claims[b].proposition);
    KindOfConflictSymmetric(claims[a].proposition, claims[b].proposition,
        registry.predicates[claims[a].proposition.predicateKey]);
  }

  /** Claims and rows may change as long as no new claim becomes active. */
  lemma DisclosureStays(registry: Registry, t: Tables, after: Tables, h: seq<Event>, events: seq<Event>)
    requires AllDisclosed(registry, t, h, {}) && Evolves(t.conflicts, after.conflicts, events)
    requires NoNewActive(t.claims, after.claims)
    ensures AllDisclosed(registry, after, h + events, {})
  {
    forall a, b, kind | Opposed(registry, after.claims, a, b, kind)
      ensures Disclosed(after.conflicts, h + events, {a, b}, OwnFamily(registry, after.claims[a].proposition), kind)
    {
      assert Opposed(registry, t.claims, a, b, kind);
      NamedStays(t.conflicts, after.conflicts, h, events, {a, b}, OwnFamily(registry, t.claims[a].proposition), kind);
    }
  }

  lemma NewPairDisclosed(registry: Registry, claims: map<Id, ClaimRow>, incoming: Claim, ignored: set<Id>, a: Id,
      b: Id, kind: ConflictKind)
    requires FamiliesNamePredicate(registry) && Opposed(registry, claims, a, b, kind) && a !in ignored && b !in ignored
    requires incoming.claimId in {a, b} && incoming.claimId in claims
        && claims[incoming.claimId].proposition == incoming.proposition
    ensures Known(registry, incoming.proposition)
    ensures
      var def := registry.predicates[incoming.proposition.predicateKey];
      var other := if a == incoming.claimId then b else a;
      && other in Rivals(claims, incoming, def, ignored, kind) && {a, b} == {incoming.claimId, other}
      && OwnFamily(registry, claims[a].proposition) == OwnFamily(registry, incoming.proposition)
  {
    OpposedSymmetric(registry, claims, a, b, kind);
  }

  lemma AssertionDiscloses(registry: Registry, t: Tables, claim: Claim, evidence: seq<EvidenceLink>, ignored: set<Id>,
      openedSeq: nat, h: seq<Event>)
    requires FamiliesNamePredicate(registry) && R.Sound(registry, t) && AllDisclosed(registry, t, h, {})
    requires AssertNewClaim(registry, t, claim, evidence, ignored, openedSeq).Ok?
    ensures
      var step := AssertNewClaim(registry, t, claim, evidence, ignored, openedSeq).value;
      AllDisclosed(registry, step.tables, h + step.events, ignored)
          && Evolves(t.conflicts, step.tables.conflicts, step.events)
  {
    var admitted, conflicts := AssertionStep(registry, t, claim, evidence, ignored, openedSeq);
    AdmitClaimSound(registry, t, claim, evidence);
    var asserted := [ClaimAsserted(claim, evidence)];
    OpenConflictsDisclose(registry, admitted, claim, ignored, openedSeq, h + asserted);
    OpenConflictsRefines(registry, admitted, claim, ignored, openedSeq);
    Reassociate(h, asserted, conflicts.events);
    EvolvesAfter(admitted.conflicts, conflicts.tables.conflicts, asserted[0], conflicts.events);
    AdmittedPairsDisclosed(registry, t, admitted, conflicts.tables, claim, ignored, h, asserted + conflicts.events);
  }

  lemma EvolvesAfter(before: map<Id, ConflictRow>, after: map<Id, ConflictRow>, e: Event, events: seq<Event>)
    requires Evolves(before, after, events) && !e.ConflictResolved?
    ensures Evolves(before, after, [e] + events)
  {
    EvolvesTransitive(before, before, after, [e], events);
  }

  /** Pairs with the new claim are named by the conflicts just opened, all others still are. */
  lemma AdmittedPairsDisclosed(registry: Registry, t: Tables, admitted: Tables, after: Tables, claim: Claim,
      ignored: set<Id>, h: seq<Event>, events: seq<Event>)
    requires FamiliesNamePredicate(registry) && AllDisclosed(registry, t, h, {})
        && Evolves(t.conflicts, after.conflicts, events)
    requires Known(registry, claim.proposition) && claim.claimId !in t.claims
    requires admitted.claims == t.claims[claim.claimId := FreshClaimRow(claim)] && after.claims == admitted.claims
    requires forall b, kind ::
        b in Rivals(admitted.claims, claim, registry.predicates[claim.proposition.predicateKey], ignored, kind) ==>
               Disclosed(after.conflicts, h + events, {claim.claimId, b}, OwnFamily(registry, claim.proposition), kind)
    ensures AllDisclosed(registry, after, h + events, ignored)
  {
    forall a, b, kind | Opposed(registry, after.claims, a, b, kind) && a !in ignored && b !in ignored
      ensures Disclosed(after.conflicts, h + events, {a, b}, OwnFamily(registry, after.claims[a].proposition), kind)
    {
      if claim.claimId in {a, b} {
        NewPairDisclosed(registry, admitted.claims, claim, ignored, a, b, kind);
      } else {
        assert Opposed(registry, t.claims, a, b, kind);
        NamedStays(t.conflicts, after.conflicts, h, events, {a, b}, OwnFamily(registry, t.claims[a].proposition), kind);
      }
    }
  }

  lemma ReplacementDiscloses(registry: Registry, t: Tables, target: Id, replacement: Claim,
      evidence: seq<EvidenceLink>, rationale: string, openedSeq: nat, h: seq<Event>)
    requires FamiliesNamePredicate(registry) && R.Sound(registry, t) && AllDisclosed(registry, t, h, {})
    requires ReplaceClaim(registry, t, target, replacement, evidence, rationale, openedSeq).Ok?
    ensures
      var step := ReplaceClaim(registry, t, target, replacement, evidence, rationale, openedSeq).value;
      AllDisclosed(registry, step.tables, h + step.events, {})
  {
    var asserted := ReplacementStep(registry, t, target, replacement, evidence, rationale, openedSeq);
    AssertionDiscloses(registry, t, replacement, evidence, {target}, openedSeq, h);
    var e := [ClaimSuperseded(target, replacement.claimId, rationale)];
    assert h + (asserted.events + e) == h + asserted.events + e;
    var step := ReplaceClaim(registry, t, target, replacement, evidence, rationale, openedSeq).value;
    forall a, b, kind | Opposed(registry, step.tables.claims, a, b, kind)
      ensures Disclosed(step.tables.conflicts, h + step.events, {a, b},
          OwnFamily(registry, step.tables.claims[a].proposition), kind)
    {
      assert Opposed(registry, asserted.tables.claims, a, b, kind);
      assert Evolves(asserted.tables.conflicts, asserted.tables.conflicts, e);
      NamedStays(asserted.tables.conflicts, asserted.tables.conflicts, h + asserted.events, e, {a, b},
        OwnFamily(registry, asserted.tables.claims[a].proposition), kind);
    }
  }

  lemma ResolutionEvolves(conflicts: map<Id, ConflictRow>, c: Id, resolution: Resolution)
    requires c in conflicts
    ensures Evolves(conflicts, conflicts[c := ResolvedRow(conflicts[c], resolution)], [ConflictResolved(c, resolution)])
  {
    assert [ConflictResolved(c, resolution)][0].conflictId == c;
    assert ResolvedIn([ConflictResolved(c, resolution)], c);
  }

  ghost predicate NoNewActive(before: map<Id, ClaimRow>, after: map<Id, ClaimRow>) {
    forall c :: c in after && after[c].status == Active ==>
      c in before && before[c].status == Active && before[c].proposition == after[c].proposition
  }

  /** Every operation but an assertion. */
  lemma QuietOperation(registry: Registry, proposer: Actor, openedSeq: nat, t: Tables, op: Operation)
    requires !op.AssertClaim? && !op.SupersedeClaim? && ApplyOperation(registry, proposer, openedSeq, t, op).Ok?
    ensures
      var step := ApplyOperation(registry, proposer, openedSeq, t, op).value;
      NoNewActive(t.claims, step.tables.claims) && Evolves(t.conflicts, step.tables.conflicts, step.events)
  {
    if op.ResolveConflict? {
      ResolutionEvolves(t.conflicts, op.conflictId, op.resolution);
    } else if op.RegisterSource? || Continuity.IsContinuityOperation(op) {
      Prediction.QuietlyPredicted(registry, proposer, openedSeq, t, op);
    }
  }

  lemma OperationDiscloses(registry: Registry, proposer: Actor, openedSeq: nat, t: Tables, op: Operation, h: seq<Event>)
    requires FamiliesNamePredicate(registry) && R.Sound(registry, t) && AllDisclosed(registry, t, h, {})
    requires ApplyOperation(registry, proposer, openedSeq, t, op).Ok?
    ensures
      var step := ApplyOperation(registry, proposer, openedSeq, t, op).value;
      AllDisclosed(registry, step.tables, h + step.events, {})
  {
    if op.AssertClaim? {
      AssertionDiscloses(registry, t, op.claim, op.initialEvidence, {}, openedSeq, h);
    } else if op.SupersedeClaim? {
      ReplacementDiscloses(registry, t, op.targetClaim, op.replacementClaim, op.replacementEvidence, op.rationale,
          openedSeq, h);
    } else {
      var step := ApplyOperation(registry, proposer, openedSeq, t, op).value;
      QuietOperation(registry, proposer, openedSeq, t, op);
      DisclosureStays(registry, t, step.tables, h, step.events);
    }
  }

  lemma {:induction false} OperationsDisclose(registry: Registry, proposer: Actor, openedSeq: nat, t: Tables,
      ops: seq<Operation>, h: seq<Event>)
    requires FamiliesNamePredicate(registry) && R.Sound(registry, t) && AllDisclosed(registry, t, h, {})
    requires ApplyOperations(registry, proposer, openedSeq, t, ops).Ok?
    ensures
      var step := ApplyOperations(registry, proposer, openedSeq, t, ops).value;
      AllDisclosed(registry, step.tables, h + step.events, {})
    decreases |ops|
  {
    if ops == [] {
      assert h + [] == h;
    } else {
      var n := |ops| - 1;
      OperationsDisclose(registry, proposer, openedSeq, t, ops[..n], h);
      OperationsRefine(registry, proposer, openedSeq, t, ops[..n]);
      var before := ApplyOperations(registry, proposer, openedSeq, t, ops[..n]).value;
      var step := ApplyOperation(registry, proposer, openedSeq, before.tables, ops[n]).value;
      OperationDiscloses(registry, proposer, openedSeq, before.tables, ops[n], h + before.events);
      assert h + (before.events + step.events) == h + before.events + step.events;
    }
  }

  /** After every commit of every run, any two active claims of one family that contradict each
      other are named together by a recorded conflict of that family and kind; unless the
      conflict was resolved after it named them, it is open and both are members. */
  lemma {:induction false} NoSilentContradiction(env: Env, inputs: seq<Submission>)
    requires FamiliesNamePredicate(env.registry)
    ensures
      var state := Run(env, EMPTY_STATE, inputs);
      AllDisclosed(env.registry, state.tables, History(state.ledger), {})
    decreases |inputs|
  {
    if inputs != [] {
      var n := |inputs| - 1;
      NoSilentContradiction(env, inputs[..n]);
      var before := Run(env, EMPTY_STATE, inputs[..n]);
      CommitEffect(env, before, inputs[n]);
      if Accepts(env, before, inputs[n]) {
        ReachableIsGood(env, inputs[..n]);
        var p := inputs[n].proposal;
        OperationsDisclose(env.registry, p.proposer, |before.ledger| + 1, before.tables, p.operations,
            History(before.ledger));
      }
    }
  }
}
