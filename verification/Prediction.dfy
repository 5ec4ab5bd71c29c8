/** Predicting, before anything is applied, the conflicts a list of operations will open,
    merge or reopen; and the proof that the prediction is what execution does. */
module Prediction {
  import opened Wrappers
  import opened Domain
  import opened Rules
  import opened Reducers
  import opened Replay
  import opened Refinement
  import Continuity
  import opened IdOrder

  /** The simulation: active propositions, the conflict (and members) of every family and
      kind, and the identifiers predicted so far. */
  datatype Forecast = Forecast(active: map<Id, Proposition>, episodes: map<(FamilyKey, ConflictKind), (Id, set<Id>)>,
      ids: set<Id>)

  function ActiveClaims(claims: map<Id, ClaimRow>): map<Id, Proposition> {
    map c | c in claims && claims[c].status == Active :: claims[c].proposition
  }

  function PredictedRivals(active: map<Id, Proposition>, incoming: Claim, def: Predicate, ignored: set<Id>,
      kind: ConflictKind): set<Id> {
    set c | c in active && c !in ignored
            && FamilyKeyUnder(active[c], def) == FamilyKeyUnder(incoming.proposition, def)
            && KindOfConflict(incoming.proposition, active[c], def) == Some(kind)
  }

  function Noted(f: Forecast, key: (FamilyKey, ConflictKind), members: set<Id>): Forecast {
    if key in f.episodes then
      var (c, prior) := f.episodes[key];
      f.(episodes := f.episodes[key := (c, members + prior)], ids := f.ids + {c})
    else
      f.(episodes := f.episodes[key := (ConflictOf(members), members)], ids := f.ids + {ConflictOf(members)})
  }

  function PredictKind(f: Forecast, incoming: Claim, def: Predicate, ignored: set<Id>, kind: ConflictKind): Forecast {
    var rivals := PredictedRivals(f.active, incoming, def, ignored, kind);
    if rivals == {} then f
    else
      Noted(f, (FamilyKeyUnder(incoming.proposition, def), kind), rivals + {incoming.claimId})
  }

  function PredictClaim(registry: Registry, f: Forecast, incoming: Claim, ignored: set<Id>): Forecast {
    if !Known(registry, incoming.proposition) then f
    else
      var def := registry.predicates[incoming.proposition.predicateKey];
      var opened' := PredictKind(PredictKind(f, incoming, def, ignored, ExclusiveValue), incoming, def, ignored,
          PolarityClash);
      opened'.(active := opened'.active[incoming.claimId := incoming.proposition] - ignored)
  }

  function PredictOperation(registry: Registry, f: Forecast, op: Operation): Forecast {
    match op
    case AssertClaim(claim, _) => PredictClaim(registry, f, claim, {})
    case SupersedeClaim(target, replacement, _, _) => PredictClaim(registry, f, replacement, {target})
    case RetractClaim(target, _, _, _) => f.(active := f.active - {target})
    case _ => f
  }

  function PredictOperations(registry: Registry, f: Forecast, ops: seq<Operation>): Forecast
    decreases |ops|
  {
    if ops == [] then f
    else PredictOperation(registry, PredictOperations(registry, f, ops[..|ops| - 1]), ops[|ops| - 1])
  }

  // ---------------------------------------------------------------- agreement

  /** The simulation shows the tables: which claims are active, which row has which kind. */
  ghost predicate Shows(f: Forecast, t: Tables) {
    && f.active == ActiveClaims(t.claims)
    && ShowsRows(f.episodes, t.conflicts)
  }

  ghost predicate ShowsRows(episodes: map<(FamilyKey, ConflictKind), (Id, set<Id>)>, conflicts: map<Id, ConflictRow>) {
    && (forall c :: c in conflicts ==>
          (conflicts[c].familyKey, conflicts[c].kind) in episodes
          && episodes[(conflicts[c].familyKey, conflicts[c].kind)].0 == c)
    && (forall key :: key in episodes ==>
          episodes[key].0 in conflicts && Matches(conflicts[episodes[key].0], key.0, key.1))
  }

  ghost function Ids(touched: seq<Id>): set<Id> {
    set c | c in touched
  }

  lemma IdsAppend(first: seq<Id>, second: seq<Id>)
    ensures Ids(first + second) == Ids(first) + Ids(second)
  {}

  lemma KindPredicted(registry: Registry, f: Forecast, t: Tables, incoming: Claim, ignored: set<Id>,
      kind: ConflictKind, openedSeq: nat)
    requires FamiliesNamePredicate(registry) && Sound(registry, t) && ShowsRows(f.episodes, t.conflicts)
    requires incoming.claimId in t.claims && t.claims[incoming.claimId].proposition == incoming.proposition
    requires Known(registry, incoming.proposition)
    requires ConflictOf(MembersOf(registry, t, incoming, ignored, kind)) !in t.conflicts
    requires PredictedRivals(f.active, incoming, registry.predicates[incoming.proposition.predicateKey], ignored, kind)
          == Rivals(t.claims, incoming, registry.predicates[incoming.proposition.predicateKey], ignored, kind)
    ensures
      var def := registry.predicates[incoming.proposition.predicateKey];
      var r := OpenKind(t, incoming, def, ignored, kind, openedSeq);
      var f' := PredictKind(f, incoming, def, ignored, kind);
      && r.Ok? && ShowsRows(f'.episodes, r.value.tables.conflicts)
      && f'.ids == f.ids + Ids(r.value.touched) && f'.active == f.active
  {
    var def := registry.predicates[incoming.proposition.predicateKey];
    var rivals := Rivals(t.claims, incoming, def, ignored, kind);
    if rivals != {} {
      RivalsShareFamily(registry, t.claims, incoming, ignored, kind);
      RowPredicted(registry, f, t, OwnFamily(registry, incoming.proposition), kind, rivals + {incoming.claimId},
          openedSeq);
    } else {
      assert Ids([]) == {};
    }
  }

  /** The simulation notes the row that is opened, under its identifier. */
  lemma RowPredicted(registry: Registry, f: Forecast, t: Tables, family: FamilyKey, kind: ConflictKind,
      members: set<Id>, openedSeq: nat)
    requires Sound(registry, t) && ShowsRows(f.episodes, t.conflicts)
    requires members != {} && OneFamily(registry, t.claims, members, family) && ConflictOf(members) !in t.conflicts
    ensures
      var r := OpenRow(t.conflicts, family, kind, members, openedSeq);
      var f' := Noted(f, (family, kind), members);
      && r.Ok? && ShowsRows(f'.episodes, t.conflicts[r.value.0 := r.value.1])
      && f'.ids == f.ids + Ids([r.value.0]) && f'.active == f.active
  {
    OpenRowSound(registry, t, family, kind, members, openedSeq);
    var (c, row) := OpenRow(t.conflicts, family, kind, members, openedSeq).value;
    RowShown(f, t.conflicts, family, kind, members, c, row);
    assert Ids([c]) == {c};
  }

  lemma RowShown(f: Forecast, conflicts: map<Id, ConflictRow>, family: FamilyKey, kind: ConflictKind,
                 members: set<Id>, c: Id, row: ConflictRow)
    requires ShowsRows(f.episodes, conflicts) && Matches(row, family, kind)
    requires if c in conflicts then Matches(conflicts[c], family, kind) else c == ConflictOf(members)
    requires forall d :: d in conflicts && Matches(conflicts[d], family, kind) ==> c == d
    ensures
      var f' := Noted(f, (family, kind), members);
      ShowsRows(f'.episodes, conflicts[c := row]) && f'.ids == f.ids + {c} && f'.active == f.active
  {
    var key := (family, kind);
    var after := Noted(f, key, members).episodes;
    if c in conflicts {
      assert (conflicts[c].familyKey, conflicts[c].kind) == key;
    } else {
      assert key !in f.episodes;
    }
    assert after[key].0 == c;
    forall k | k in after
      ensures after[k].0 in conflicts[c := row] && Matches(conflicts[c := row][after[k].0], k.0, k.1)
    {
      if k != key {
        assert k in f.episodes && after[k] == f.episodes[k];
      }
    }
  }

  lemma ConflictsPredicted(registry: Registry, f: Forecast, t: Tables, incoming: Claim, ignored: set<Id>,
      openedSeq: nat)
    requires FamiliesNamePredicate(registry) && Sound(registry, t) && ShowsRows(f.episodes, t.conflicts)
    requires incoming.claimId in t.claims && t.claims[incoming.claimId].proposition == incoming.proposition
    requires f.active == ActiveClaims(t.claims) - {incoming.claimId}
    requires forall c :: c in t.conflicts && c.ConflictOf? ==> incoming.claimId !in c.firstMembers
    ensures
      var def := registry.predicates[incoming.proposition.predicateKey];
      var r := OpenConflicts(t, incoming, def, ignored, openedSeq);
      var f' := PredictKind(PredictKind(f, incoming, def, ignored, ExclusiveValue), incoming, def, ignored,
          PolarityClash);
      && r.Ok? && ShowsRows(f'.episodes, r.value.tables.conflicts)
      && f'.ids == f.ids + Ids(r.value.touched) && f'.active == f.active
  {
    var def := registry.predicates[incoming.proposition.predicateKey];
    SecondKindIsFresh(registry, t, incoming, ignored, openedSeq);
    OpenKindSound(registry, t, incoming, ignored, ExclusiveValue, openedSeq);
    var first := OpenKind(t, incoming, def, ignored, ExclusiveValue, openedSeq).value;
    RivalsPredicted(f.active, t.claims, incoming, def, ignored, ExclusiveValue);
    KindPredicted(registry, f, t, incoming, ignored, ExclusiveValue, openedSeq);
    var middle := PredictKind(f, incoming, def, ignored, ExclusiveValue);
    RivalsPredicted(middle.active, first.tables.claims, incoming, def, ignored, PolarityClash);
    KindPredicted(registry, middle, first.tables, incoming, ignored, PolarityClash, openedSeq);
    IdsAppend(first.touched, OpenKind(first.tables, incoming, def, ignored, PolarityClash, openedSeq).value.touched);
  }

  lemma RivalsPredicted(active: map<Id, Proposition>, claims: map<Id, ClaimRow>, incoming: Claim, def: Predicate,
      ignored: set<Id>, kind: ConflictKind)
    requires active == ActiveClaims(claims) - {incoming.claimId}
    ensures PredictedRivals(active, incoming, def, ignored, kind) == Rivals(claims, incoming, def, ignored, kind)
  {}

  lemma ActiveAfterRemoval(claims: map<Id, ClaimRow>, c: Id, row: ClaimRow)
    requires row.status != Active
    ensures ActiveClaims(claims[c := row]) == ActiveClaims(claims) - {c}
  {}

  lemma ActiveUnchanged(claims: map<Id, ClaimRow>, c: Id, version: nat)
    requires c in claims
    ensures ActiveClaims(claims[c := claims[c].(version := version)]) == ActiveClaims(claims)
  {}

  lemma ResolutionShown(episodes: map<(FamilyKey, ConflictKind), (Id, set<Id>)>, conflicts: map<Id, ConflictRow>,
      c: Id, resolution: Resolution)
    requires ShowsRows(episodes, conflicts) && c in conflicts
    ensures ShowsRows(episodes, conflicts[c := ResolvedRow(conflicts[c], resolution)])
  {}

  /** Asserting a claim from the tables `t` the simulation shows. */
  lemma AssertPredicted(registry: Registry, f: Forecast, t: Tables, claim: Claim, evidence: seq<EvidenceLink>,
      ignored: set<Id>, openedSeq: nat)
    requires FamiliesNamePredicate(registry) && Sound(registry, t) && Shows(f, t)
    requires AssertNewClaim(registry, t, claim, evidence, ignored, openedSeq).Ok?
    ensures
      var step := AssertNewClaim(registry, t, claim, evidence, ignored, openedSeq).value;
      var f' := PredictClaim(registry, f, claim, ignored);
      && f'.active == ActiveClaims(step.tables.claims) - ignored
      && ShowsRows(f'.episodes, step.tables.conflicts)
      && f'.ids == f.ids + Ids(step.touched)
  {
    var admitted, conflicts := AssertionStep(registry, t, claim, evidence, ignored, openedSeq);
    AdmitClaimSound(registry, t, claim, evidence);
    ActiveOthers(t.claims, claim);
    ConflictsPredicted(registry, f, admitted, claim, ignored, openedSeq);
    OpenConflictsRefines(registry, admitted, claim, ignored, openedSeq);
  }

  /** The other active claims are the ones active before. */
  lemma ActiveOthers(claims: map<Id, ClaimRow>, claim: Claim)
    requires claim.claimId !in claims
    ensures ActiveClaims(claims[claim.claimId := FreshClaimRow(claim)])
        == ActiveClaims(claims)[claim.claimId := claim.proposition]
    ensures ActiveClaims(claims[claim.claimId := FreshClaimRow(claim)]) - {claim.claimId} == ActiveClaims(claims)
    ensures claim.claimId !in ActiveClaims(claims)
  {
  }

  lemma ReplacePredicted(registry: Registry, f: Forecast, t: Tables, target: Id, replacement: Claim,
      evidence: seq<EvidenceLink>, rationale: string, openedSeq: nat)
    requires FamiliesNamePredicate(registry) && Sound(registry, t) && Shows(f, t)
    requires ReplaceClaim(registry, t, target, replacement, evidence, rationale, openedSeq).Ok?
    ensures
      var step := ReplaceClaim(registry, t, target, replacement, evidence, rationale, openedSeq).value;
      var f' := PredictClaim(registry, f, replacement, {target});
      Shows(f', step.tables) && f'.ids == f.ids + Ids(step.touched)
  {
    var asserted := ReplacementStep(registry, t, target, replacement, evidence, rationale, openedSeq);
    AssertPredicted(registry, f, t, replacement, evidence, {target}, openedSeq);
    ActiveAfterRemoval(asserted.tables.claims, target,
        SupersededRow(asserted.tables.claims[target], replacement.claimId));
  }

  /** A prediction shows what a step leaves and names the conflicts it touched. */
  ghost predicate Foretells(f: Forecast, after: Forecast, step: Step) {
    Shows(after, step.tables) && after.ids == f.ids + Ids(step.touched)
  }

  lemma QuietlyForetold(f: Forecast, after: Forecast, step: Step)
    requires Shows(after, step.tables) && after.ids == f.ids && step.touched == []
    ensures Foretells(f, after, step)
  {
    assert Ids([]) == {};
  }

  lemma RetractionPredicted(registry: Registry, proposer: Actor, openedSeq: nat, f: Forecast, t: Tables, op: Operation)
    requires Shows(f, t) && op.RetractClaim? && ApplyOperation(registry, proposer, openedSeq, t, op).Ok?
    ensures Foretells(f, PredictOperation(registry, f, op), ApplyOperation(registry, proposer, openedSeq, t, op).value)
  {
    var step := ApplyOperation(registry, proposer, openedSeq, t, op).value;
    assert WithdrawClaim(t, proposer, op.retractedClaim, op.evidenceLinkIds).Ok?;
    ActiveAfterRemoval(t.claims, op.retractedClaim, RetractedRow(t.claims[op.retractedClaim]));
    QuietlyForetold(f, PredictOperation(registry, f, op), step);
  }

  lemma ResolutionPredicted(registry: Registry, proposer: Actor, openedSeq: nat, f: Forecast, t: Tables, op: Operation)
    requires Shows(f, t) && op.ResolveConflict? && ApplyOperation(registry, proposer, openedSeq, t, op).Ok?
    ensures Foretells(f, PredictOperation(registry, f, op), ApplyOperation(registry, proposer, openedSeq, t, op).value)
  {
    var step := ApplyOperation(registry, proposer, openedSeq, t, op).value;
    assert SettleConflict(t, proposer, op.conflictId, op.expectedMemberDigest, op.resolution).Ok?;
    ResolutionShown(f.episodes, t.conflicts, op.conflictId, op.resolution);
    QuietlyForetold(f, PredictOperation(registry, f, op), step);
  }

  lemma AttachmentPredicted(registry: Registry, proposer: Actor, openedSeq: nat, f: Forecast, t: Tables, op: Operation)
    requires Shows(f, t) && op.AttachEvidence? && ApplyOperation(registry, proposer, openedSeq, t, op).Ok?
    ensures Foretells(f, PredictOperation(registry, f, op), ApplyOperation(registry, proposer, openedSeq, t, op).value)
  {
    var step := ApplyOperation(registry, proposer, openedSeq, t, op).value;
    ActiveUnchanged(t.claims, op.link.claimId, t.claims[op.link.claimId].version + 1);
    QuietlyForetold(f, PredictOperation(registry, f, op), step);
  }

  /** Operations that touch no conflict row's kind and open none. */
  lemma OthersPredicted(registry: Registry, proposer: Actor, openedSeq: nat, f: Forecast, t: Tables, op: Operation)
    requires Shows(f, t) && !op.AssertClaim? && !op.SupersedeClaim?
    requires ApplyOperation(registry, proposer, openedSeq, t, op).Ok?
    ensures Foretells(f, PredictOperation(registry, f, op), ApplyOperation(registry, proposer, openedSeq, t, op).value)
  {
    if op.RetractClaim? {
      RetractionPredicted(registry, proposer, openedSeq, f, t, op);
    } else if op.ResolveConflict? {
      ResolutionPredicted(registry, proposer, openedSeq, f, t, op);
    } else if op.AttachEvidence? {
      AttachmentPredicted(registry, proposer, openedSeq, f, t, op);
    } else {
      QuietlyPredicted(registry, proposer, openedSeq, t, op);
      QuietlyForetold(f, f, ApplyOperation(registry, proposer, openedSeq, t, op).value);
    }
  }

  /** Sources and continuity records touch neither claims nor conflict rows. */
  lemma QuietlyPredicted(registry: Registry, proposer: Actor, openedSeq: nat, t: Tables, op: Operation)
    requires op.RegisterSource? || Continuity.IsContinuityOperation(op) || op.UnsupportedOperation?
    requires ApplyOperation(registry, proposer, openedSeq, t, op).Ok?
    ensures
      var step := ApplyOperation(registry, proposer, openedSeq, t, op).value;
      step.tables.claims == t.claims && step.tables.conflicts == t.conflicts && step.touched == []
  {
    if op.RegisterSource? {
      var after := PutSource(t, op.source).value;
      assert after.claims == t.claims && after.conflicts == t.conflicts;
    }
  }

  lemma OperationPredicted(registry: Registry, proposer: Actor, openedSeq: nat, f: Forecast, t: Tables, op: Operation)
    requires FamiliesNamePredicate(registry) && Sound(registry, t) && Shows(f, t)
    requires ApplyOperation(registry, proposer, openedSeq, t, op).Ok?
    ensures Foretells(f, PredictOperation(registry, f, op), ApplyOperation(registry, proposer, openedSeq, t, op).value)
  {
    if op.AssertClaim? {
      AssertPredicted(registry, f, t, op.claim, op.initialEvidence, {}, openedSeq);
    } else if op.SupersedeClaim? {
      ReplacePredicted(registry, f, t, op.targetClaim, op.replacementClaim, op.replacementEvidence, op.rationale,
          openedSeq);
    } else {
      OthersPredicted(registry, proposer, openedSeq, f, t, op);
    }
  }

  lemma {:induction false} OperationsPredicted(registry: Registry, proposer: Actor, openedSeq: nat, f: Forecast,
      t: Tables, ops: seq<Operation>)
    requires FamiliesNamePredicate(registry) && Sound(registry, t) && Shows(f, t)
    requires ApplyOperations(registry, proposer, openedSeq, t, ops).Ok?
    ensures
      var step := ApplyOperations(registry, proposer, openedSeq, t, ops).value;
      var f' := PredictOperations(registry, f, ops);
      Shows(f', step.tables) && f'.ids == f.ids + Ids(step.touched)
    decreases |ops|
  {
    if ops != [] {
      var n := |ops| - 1;
      OperationsPredicted(registry, proposer, openedSeq, f, t, ops[..n]);
      OperationsRefine(registry, proposer, openedSeq, t, ops[..n]);
      var before := ApplyOperations(registry, proposer, openedSeq, t, ops[..n]).value;
      OperationPredicted(registry, proposer, openedSeq, PredictOperations(registry, f, ops[..n]), before.tables,
          ops[n]);
      IdsAppend(before.touched, ApplyOperation(registry, proposer, openedSeq, before.tables, ops[n]).value.touched);
    }
  }

  // ------------------------------------------------------- the prediction itself

  function EpisodeKeys(conflicts: map<Id, ConflictRow>): set<(FamilyKey, ConflictKind)> {
    set c | c in conflicts :: (conflicts[c].familyKey, conflicts[c].kind)
  }

  /** The order in which rows are read: open ones first, later episodes first, then by identifier. */
  predicate Precedes(conflicts: map<Id, ConflictRow>, c: Id, d: Id)
    requires c in conflicts && d in conflicts
  {
    var x, y := conflicts[c], conflicts[d];
    if x.status != y.status then x.status == Open
    else if x.episode != y.episode then x.episode > y.episode
    else Earlier(c, d)
  }

  ghost predicate IsFirst(conflicts: map<Id, ConflictRow>, rows: set<Id>, c: Id)
    requires rows <= conflicts.Keys
  {
    c in rows && forall d :: d in rows && d != c ==> Precedes(conflicts, c, d)
  }

  lemma OneFirst(conflicts: map<Id, ConflictRow>, rows: set<Id>, c: Id, d: Id)
    requires rows <= conflicts.Keys && IsFirst(conflicts, rows, c) && IsFirst(conflicts, rows, d)
    ensures c == d
  {
    EarlierTotal(c, d, Depth(c) + Depth(d));
  }

  lemma {:induction false} SomeFirst(conflicts: map<Id, ConflictRow>, rows: set<Id>)
    requires rows <= conflicts.Keys && rows != {}
    ensures exists c :: IsFirst(conflicts, rows, c)
  {
    var one :| one in rows;
    if rows == {one} {
      assert IsFirst(conflicts, rows, one);
    } else {
      SomeFirst(conflicts, rows - {one});
      var other :| IsFirst(conflicts, rows - {one}, other);
      EarlierTotal(one, other, Depth(one) + Depth(other));
      if Precedes(conflicts, one, other) {
        forall d | d in rows && d != one && d != other
          ensures Precedes(conflicts, one, d)
        {
          assert Precedes(conflicts, other, d);
          if Earlier(one, other) && Earlier(other, d) {
            EarlierTransitive(one, other, d, Depth(one) + Depth(other) + Depth(d));
          }
        }
        assert IsFirst(conflicts, rows, one);
      } else {
        assert IsFirst(conflicts, rows, other);
      }
    }
  }

  function RowsOf(conflicts: map<Id, ConflictRow>, key: (FamilyKey, ConflictKind)): set<Id> {
    set c | c in conflicts && (conflicts[c].familyKey, conflicts[c].kind) == key
  }

  ghost function FirstOf(conflicts: map<Id, ConflictRow>, key: (FamilyKey, ConflictKind)): (first: Id)
    requires key in EpisodeKeys(conflicts)
    ensures IsFirst(conflicts, RowsOf(conflicts, key), first)
  {
    var some :| some in conflicts && (conflicts[some].familyKey, conflicts[some].kind) == key;
    assert some in RowsOf(conflicts, key);
    SomeFirst(conflicts, RowsOf(conflicts, key));
    var c :| IsFirst(conflicts, RowsOf(conflicts, key), c);
    c
  }

  /** The index of conflict rows the prediction starts from: the first row of each family and kind. */
  ghost function Episodes(conflicts: map<Id, ConflictRow>): map<(FamilyKey, ConflictKind), (Id, set<Id>)> {
    map key | key in EpisodeKeys(conflicts) :: (FirstOf(conflicts, key), conflicts[FirstOf(conflicts, key)].members)
  }

  ghost function Predicted(registry: Registry, t: Tables, ops: seq<Operation>): set<Id> {
    PredictOperations(registry, Forecast(ActiveClaims(t.claims), Episodes(t.conflicts), {}), ops).ids
  }

  lemma EpisodesShowRows(conflicts: map<Id, ConflictRow>)
    requires OneRowPerKind(conflicts)
    ensures ShowsRows(Episodes(conflicts), conflicts)
  {
    var episodes := Episodes(conflicts);
    forall c | c in conflicts
      ensures (conflicts[c].familyKey, conflicts[c].kind) in episodes
          && episodes[(conflicts[c].familyKey, conflicts[c].kind)].0 == c
    {
      assert Matches(conflicts[c], conflicts[c].familyKey, conflicts[c].kind);
    }
  }

  /** For every list of operations that applies, the identifiers predicted from the tables
      before it are exactly those it opens, merges or reopens. */
  lemma PredictionIsExecution(registry: Registry, proposer: Actor, openedSeq: nat, t: Tables, ops: seq<Operation>)
    requires FamiliesNamePredicate(registry) && Sound(registry, t)
    requires ApplyOperations(registry, proposer, openedSeq, t, ops).Ok?
    ensures Predicted(registry, t, ops) == Ids(ApplyOperations(registry, proposer, openedSeq, t, ops).value.touched)
  {
    EpisodesShowRows(t.conflicts);
    OperationsPredicted(registry, proposer, openedSeq, Forecast(ActiveClaims(t.claims), Episodes(t.conflicts), {}), t,
        ops);
  }
}
