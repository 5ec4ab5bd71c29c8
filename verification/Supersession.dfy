/** Supersession is a finite forest: every replacement chain runs forward in creation order,
    never merges and ends at a record that was never replaced. */
module Supersession {
  import opened Wrappers
  import opened Domain
  import opened Rules
  import opened Reducers
  import opened Ledger
  import opened Invariant
  import opened Refinement
  import opened Sequences
  import Continuity
  import R = Replay

  type Links = map<Id, Option<Id>>

  // ---------------------------------------------------------------------- forests

  ghost predicate Distinct(order: seq<Id>) {
    forall i, j :: 0 <= i < j < |order| ==> order[i] != order[j]
  }

  /** The record at position `i`, if replaced, is replaced by one created later. */
  ghost predicate Forward(links: Links, order: seq<Id>, i: nat)
    requires i < |order|
  {
    order[i] in links && (links[order[i]].Some? ==> exists j :: i < j < |order| && order[j] == links[order[i]].value)
  }

  /** Two records replaced by the same one. */
  ghost predicate Merge(links: Links, x: Id, y: Id) {
    x != y && x in links && y in links && links[x].Some? && links[x] == links[y]
  }

  ghost predicate Forest(links: Links, order: seq<Id>) {
    && Distinct(order)
    && (forall x :: x in links ==> x in order)
    && (forall i {:trigger Forward(links, order, i)} :: 0 <= i < |order| ==> Forward(links, order, i))
    && (forall x, y :: !Merge(links, x, y))
  }

  function Follow(links: Links, x: Id, steps: nat): Id
    decreases steps
  {
    if steps == 0 || x !in links || links[x].None? then x else Follow(links, links[x].value, steps - 1)
  }

  lemma {:induction false} ChainEnds(links: Links, order: seq<Id>, i: nat)
    requires Forest(links, order) && i < |order|
    ensures exists n: nat ::
        n < |order| - i && Follow(links, order[i], n) in links && links[Follow(links, order[i], n)].None?
    decreases |order| - i
  {
    assert Forward(links, order, i);
    if links[order[i]].Some? {
      var j :| i < j < |order| && order[j] == links[order[i]].value;
      ChainEnds(links, order, j);
      var n: nat :| n < |order| - j && Follow(links, order[j], n) in links && links[Follow(links, order[j], n)].None?;
      assert Follow(links, order[i], n + 1) == Follow(links, order[j], n);
    } else {
      assert Follow(links, order[i], 0) == order[i];
    }
  }

  lemma ForestGrows(links: Links, order: seq<Id>, x: Id)
    requires Forest(links, order) && x !in links
    ensures Forest(links[x := None], order + [x])
  {
    var links', order' := links[x := None], order + [x];
    forall i | 0 <= i < |order|
      ensures order[i] in links && order[i] != x && Forward(links', order', i)
    {
      assert Forward(links, order, i);
      if links[order[i]].Some? {
        var j :| i < j < |order| && order[j] == links[order[i]].value;
        assert order'[j] == order[j];
      }
    }
    assert order'[|order|] == x;
    assert Forward(links', order', |order|);
    forall y, z
      ensures !Merge(links', y, z)
    {
      assert !Merge(links, y, z);
    }
    forall y | y in links'
      ensures y in order'
    {
      assert y == x || y in order;
    }
  }

  /** Replacing a never-replaced record by the newest one. */
  lemma ForestLinks(links: Links, order: seq<Id>, x: Id, newest: Id)
    requires Forest(links, order) && x !in {newest} && x in links && links[x].None? && newest !in links
    ensures Forest(links[newest := None][x := Some(newest)], order + [newest])
  {
    ForestGrows(links, order, newest);
    var grown, order' := links[newest := None], order + [newest];
    var links' := grown[x := Some(newest)];
    forall y | y in links && links[y].Some?
      ensures links[y].value != newest
    {
      var i :| 0 <= i < |order| && order[i] == y;
      assert Forward(links, order, i);
      var j :| i < j < |order| && order[j] == links[y].value;
      assert Forward(links, order, j);
    }
    forall y, z
      ensures !Merge(links', y, z)
    {
      assert !Merge(links, y, z);
    }
    forall i | 0 <= i < |order'|
      ensures Forward(links', order', i)
    {
      assert Forward(grown, order', i);
      if order'[i] == x {
        assert i < |order| && order'[|order|] == newest;
      }
    }
  }

  // -------------------------------------------------------- the two kinds of record

  function DecisionLinks(decisions: map<Id, DecisionRow>): Links {
    map d | d in decisions :: decisions[d].replacedBy
  }

  function ClaimLinks(claims: map<Id, ClaimRow>): Links {
    map c | c in claims :: claims[c].supersededBy
  }

  function DecisionsCreated(e: Event): seq<Id> {
    match e
    case DecisionRecorded(decision) => [decision.decisionId]
    case DecisionReplaced(_, _, replacement, _, _, _) => [replacement.decisionId]
    case _ => []
  }

  function ClaimsCreated(e: Event): seq<Id> {
    if e.ClaimAsserted? then [e.claim.claimId] else []
  }

  /** The decisions a history created, in order. */
  function DecisionOrder(h: seq<Event>): seq<Id>
    decreases |h|
  {
    if h == [] then [] else DecisionOrder(h[..|h| - 1]) + DecisionsCreated(h[|h| - 1])
  }

  /** The claims a history created, in order. */
  function ClaimOrder(h: seq<Event>): seq<Id>
    decreases |h|
  {
    if h == [] then [] else ClaimOrder(h[..|h| - 1]) + ClaimsCreated(h[|h| - 1])
  }

  lemma {:induction false} ClaimOrderAppend(h: seq<Event>, events: seq<Event>)
    ensures ClaimOrder(h + events) == ClaimOrder(h) + ClaimOrder(events)
    decreases |events|
  {
    if events == [] {
      assert h + events == h;
    } else {
      var n := |events| - 1;
      assert (h + events)[..|h + events| - 1] == h + events[..n];
      ClaimOrderAppend(h, events[..n]);
    }
  }

  lemma DecisionOrderOne(h: seq<Event>, e: Event)
    ensures DecisionOrder(h + [e]) == DecisionOrder(h) + DecisionsCreated(e)
  {
    assert (h + [e])[..|h|] == h;
  }

  /** Columns, embedded document and lifecycle of a decision row agree. */
  ghost predicate DecisionRowSound(d: Id, row: DecisionRow) {
    && row.document.decisionId == d
    && row.document.status == row.status && row.document.version == row.version
        && row.document.replacedBy == row.replacedBy
    && (row.status == DecisionActive <==> row.replacedBy.None?)
    && (row.status == DecisionActive || row.status == DecisionSuperseded || row.status == DecisionReversed)
  }

  ghost predicate DecisionForest(t: Tables, h: seq<Event>) {
    && Forest(DecisionLinks(t.decisions), DecisionOrder(h))
    && forall d :: d in t.decisions ==> DecisionRowSound(d, t.decisions[d])
  }

  lemma DecisionLinksAfter(decisions: map<Id, DecisionRow>, newest: Id, row: DecisionRow, target: Id,
      replaced: DecisionRow)
    requires row.replacedBy.None?
    ensures DecisionLinks(decisions[newest := row]) == DecisionLinks(decisions)[newest := None]
    ensures DecisionLinks(decisions[newest := row][target := replaced])
        == DecisionLinks(decisions)[newest := None][target := replaced.replacedBy]
  {}

  lemma ClaimLinksAfter(claims: map<Id, ClaimRow>, newest: Id, row: ClaimRow)
    ensures ClaimLinks(claims[newest := row]) == ClaimLinks(claims)[newest := row.supersededBy]
  {}

  lemma RecordedKeepsForest(t: Tables, h: seq<Event>, e: Event)
    requires DecisionForest(t, h) && e.DecisionRecorded? && Continuity.ApplyEvent(t, e).Ok?
    ensures DecisionForest(Continuity.ApplyEvent(t, e).value, h + [e])
  {
    var newest := e.decision.decisionId;
    DecisionOrderOne(h, e);
    ForestGrows(DecisionLinks(t.decisions), DecisionOrder(h), newest);
    DecisionLinksAfter(t.decisions, newest, Continuity.FreshDecisionRow(e.decision), newest,
        Continuity.FreshDecisionRow(e.decision));
  }

  lemma ReplacedKeepsForest(t: Tables, h: seq<Event>, e: Event)
    requires DecisionForest(t, h) && e.DecisionReplaced? && Continuity.ApplyEvent(t, e).Ok?
    ensures DecisionForest(Continuity.ApplyEvent(t, e).value, h + [e])
  {
    var target, newest := e.targetDecision, e.replacementDecision.decisionId;
    DecisionOrderOne(h, e);
    assert DecisionRowSound(target, t.decisions[target]);
    ForestLinks(DecisionLinks(t.decisions), DecisionOrder(h), target, newest);
    DecisionLinksAfter(t.decisions, newest, Continuity.FreshDecisionRow(e.replacementDecision), target,
      Continuity.ReplacedRow(t.decisions[target], e.disposition, newest));
  }

  lemma ContinuityLeavesDecisions(t: Tables, e: Event)
    requires Continuity.IsContinuityEvent(e) && !e.DecisionRecorded? && !e.DecisionReplaced?
    requires Continuity.ApplyEvent(t, e).Ok?
    ensures Continuity.ApplyEvent(t, e).value.decisions == t.decisions
  {}

  lemma OtherLeavesDecisions(registry: Registry, t: Tables, e: Event)
    requires R.ApplyEvent(registry, t, e).Ok? && !e.DecisionRecorded? && !e.DecisionReplaced?
    ensures R.ApplyEvent(registry, t, e).value.decisions == t.decisions
  {
    if Continuity.IsContinuityEvent(e) {
      ContinuityLeavesDecisions(t, e);
    }
  }

  lemma OtherLeavesOrder(h: seq<Event>, e: Event)
    requires !e.DecisionRecorded? && !e.DecisionReplaced?
    ensures DecisionOrder(h + [e]) == DecisionOrder(h)
  {
    DecisionOrderOne(h, e);
    assert DecisionOrder(h) + [] == DecisionOrder(h);
  }

  lemma EventKeepsDecisionForest(registry: Registry, t: Tables, h: seq<Event>, e: Event)
    requires DecisionForest(t, h) && R.ApplyEvent(registry, t, e).Ok?
    ensures DecisionForest(R.ApplyEvent(registry, t, e).value, h + [e])
  {
    if e.DecisionRecorded? {
      RecordedKeepsForest(t, h, e);
    } else if e.DecisionReplaced? {
      ReplacedKeepsForest(t, h, e);
    } else {
      OtherLeavesDecisions(registry, t, e);
      OtherLeavesOrder(h, e);
    }
  }

  ghost predicate ReplaysToForest(registry: Registry, h: seq<Event>) {
    R.Replay(registry, EMPTY_TABLES, h).Ok? ==> DecisionForest(R.Replay(registry, EMPTY_TABLES, h).value, h)
  }

  lemma NextReplaysToForest(registry: Registry, h: seq<Event>, e: Event, next: seq<Event>)
    requires next == h + [e] && ReplaysToForest(registry, h)
    ensures ReplaysToForest(registry, next)
  {
    assert next[..|next| - 1] == h;
    if R.Replay(registry, EMPTY_TABLES, next).Ok? {
      EventKeepsDecisionForest(registry, R.Replay(registry, EMPTY_TABLES, h).value, h, e);
    }
  }

  lemma ReplayKeepsDecisionForest(registry: Registry, events: seq<Event>)
    requires R.Replay(registry, EMPTY_TABLES, events).Ok?
    ensures DecisionForest(R.Replay(registry, EMPTY_TABLES, events).value, events)
  {
    assert ReplaysToForest(registry, []);
    AllReplayToForest(registry, events);
  }

  lemma AllReplayToForest(registry: Registry, events: seq<Event>)
    requires ReplaysToForest(registry, [])
    ensures ReplaysToForest(registry, events)
  {
    var holds := (h: seq<Event>) => ReplaysToForest(registry, h);
    forall i | 0 <= i < |events| && holds(events[..i])
      ensures holds(events[..i + 1])
    {
      NextReplaysToForest(registry, events[..i], events[i], events[..i + 1]);
    }
    PrefixesKeep(events, holds, |events|);
    assert events[..|events|] == events;
  }

  /** In every reachable state: a superseded or reversed decision points to a decision created
      later, no decision replaces two others, columns and documents agree, and following the
      replacements from any decision ends at an active one. */
  lemma DecisionsFormForest(env: Env, inputs: seq<Submission>, d: Id)
    requires FamiliesNamePredicate(env.registry)
    requires d in Run(env, EMPTY_STATE, inputs).tables.decisions
    ensures
      var state := Run(env, EMPTY_STATE, inputs);
      var links := DecisionLinks(state.tables.decisions);
      && DecisionForest(state.tables, History(state.ledger))
      && exists n: nat ::
          Follow(links, d, n) in state.tables.decisions
          && state.tables.decisions[Follow(links, d, n)].status == DecisionActive
  {
    var state := Run(env, EMPTY_STATE, inputs);
    var h := History(state.ledger);
    ReplayRefinesCommit(env, inputs);
    ReplayKeepsDecisionForest(env.registry, h);
    var links, order := DecisionLinks(state.tables.decisions), DecisionOrder(h);
    assert d in links;
    var i :| 0 <= i < |order| && order[i] == d;
    ChainEnds(links, order, i);
    var n: nat :| Follow(links, order[i], n) in links && links[Follow(links, order[i], n)].None?;
    assert DecisionRowSound(Follow(links, d, n), state.tables.decisions[Follow(links, d, n)]);
  }

  // --------------------------------------------------------------------------- claims

  ghost predicate ClaimForest(t: Tables, order: seq<Id>) {
    Forest(ClaimLinks(t.claims), order)
  }

  lemma OpeningCreatesNoClaim(t: Tables, incoming: Claim, def: Predicate, ignored: set<Id>, openedSeq: nat)
    requires OpenConflicts(t, incoming, def, ignored, openedSeq).Ok?
    ensures ClaimOrder(OpenConflicts(t, incoming, def, ignored, openedSeq).value.events) == []
  {
    var first := OpenKind(t, incoming, def, ignored, ExclusiveValue, openedSeq).value;
    var second := OpenKind(first.tables, incoming, def, ignored, PolarityClash, openedSeq).value;
    ClaimOrderAppend(first.events, second.events);
  }

  lemma AssertionOrder(registry: Registry, t: Tables, claim: Claim, evidence: seq<EvidenceLink>, ignored: set<Id>,
      openedSeq: nat)
    requires AssertNewClaim(registry, t, claim, evidence, ignored, openedSeq).Ok?
    ensures ClaimOrder(AssertNewClaim(registry, t, claim, evidence, ignored, openedSeq).value.events) == [claim.claimId]
  {
    var admitted, conflicts := AssertionStep(registry, t, claim, evidence, ignored, openedSeq);
    OpeningCreatesNoClaim(admitted, claim, registry.predicates[claim.proposition.predicateKey], ignored, openedSeq);
    ClaimOrderAppend([ClaimAsserted(claim, evidence)], conflicts.events);
    assert [ClaimAsserted(claim, evidence)][..0] == [];
  }

  lemma ReplacementOrder(registry: Registry, t: Tables, target: Id, replacement: Claim, evidence: seq<EvidenceLink>,
      rationale: string, openedSeq: nat)
    requires FamiliesNamePredicate(registry) && R.Sound(registry, t)
    requires ReplaceClaim(registry, t, target, replacement, evidence, rationale, openedSeq).Ok?
    ensures
      var step := ReplaceClaim(registry, t, target, replacement, evidence, rationale, openedSeq).value;
      && ClaimOrder(step.events) == [replacement.claimId]
      && target in t.claims && t.claims[target].status == Active && replacement.claimId !in t.claims
      && ClaimLinks(step.tables.claims)
          == ClaimLinks(t.claims)[replacement.claimId := None][target := Some(replacement.claimId)]
  {
    var asserted := ReplacementStep(registry, t, target, replacement, evidence, rationale, openedSeq);
    AssertNewClaimRefines(registry, t, replacement, evidence, {target}, openedSeq);
    AssertionOrder(registry, t, replacement, evidence, {target}, openedSeq);
    var e := ClaimSuperseded(target, replacement.claimId, rationale);
    ClaimOrderAppend(asserted.events, [e]);
    assert [e][..0] == [];
    ClaimLinksAfter(t.claims, replacement.claimId, FreshClaimRow(replacement));
    ClaimLinksAfter(asserted.tables.claims, target, SupersededRow(asserted.tables.claims[target], replacement.claimId));
  }

  lemma ContinuityCreatesNoClaim(t: Tables, op: Operation)
    requires Continuity.IsContinuityOperation(op) && Continuity.Apply(t, op).Ok?
    ensures
      var change := Continuity.Apply(t, op).value;
      !change.event.ClaimAsserted? && change.tables.claims == t.claims
  {}

  lemma ClaimOrderOfOne(e: Event)
    requires !e.ClaimAsserted?
    ensures ClaimOrder([e]) == []
  {
    assert [e][..0] == [];
  }

  lemma QuietOperationCreatesNoClaim(registry: Registry, proposer: Actor, openedSeq: nat, t: Tables, op: Operation)
    requires !op.AssertClaim? && !op.SupersedeClaim? && ApplyOperation(registry, proposer, openedSeq, t, op).Ok?
    ensures
      var step := ApplyOperation(registry, proposer, openedSeq, t, op).value;
      ClaimOrder(step.events) == [] && ClaimLinks(step.tables.claims) == ClaimLinks(t.claims)
  {
    var step := ApplyOperation(registry, proposer, openedSeq, t, op).value;
    if Continuity.IsContinuityOperation(op) {
      ContinuityCreatesNoClaim(t, op);
    }
    assert |step.events| == 1 && step.events == [step.events[0]];
    ClaimOrderOfOne(step.events[0]);
  }

  lemma AppendNothing(order: seq<Id>)
    ensures order + [] == order
  {}

  lemma OperationKeepsClaimForest(registry: Registry, proposer: Actor, openedSeq: nat, t: Tables, op: Operation,
      order: seq<Id>)
    requires FamiliesNamePredicate(registry) && R.Sound(registry, t) && ClaimForest(t, order)
    requires ApplyOperation(registry, proposer, openedSeq, t, op).Ok?
    ensures
      var step := ApplyOperation(registry, proposer, openedSeq, t, op).value;
      ClaimForest(step.tables, order + ClaimOrder(step.events))
  {
    if op.AssertClaim? {
      AssertNewClaimRefines(registry, t, op.claim, op.initialEvidence, {}, openedSeq);
      AssertionOrder(registry, t, op.claim, op.initialEvidence, {}, openedSeq);
      ForestGrows(ClaimLinks(t.claims), order, op.claim.claimId);
      ClaimLinksAfter(t.claims, op.claim.claimId, FreshClaimRow(op.claim));
    } else if op.SupersedeClaim? {
      ReplacementOrder(registry, t, op.targetClaim, op.replacementClaim, op.replacementEvidence, op.rationale,
          openedSeq);
      ForestLinks(ClaimLinks(t.claims), order, op.targetClaim, op.replacementClaim.claimId);
    } else {
      QuietOperationCreatesNoClaim(registry, proposer, openedSeq, t, op);
      AppendNothing(order);
    }
  }

  lemma OrderOfTwo(order: seq<Id>, first: seq<Event>, second: seq<Event>)
    ensures order + ClaimOrder(first + second) == order + ClaimOrder(first) + ClaimOrder(second)
  {
    ClaimOrderAppend(first, second);
  }

  lemma {:induction false} OperationsKeepClaimForest(registry: Registry, proposer: Actor, openedSeq: nat, t: Tables,
      ops: seq<Operation>, order: seq<Id>)
    requires FamiliesNamePredicate(registry) && R.Sound(registry, t) && ClaimForest(t, order)
    requires ApplyOperations(registry, proposer, openedSeq, t, ops).Ok?
    ensures
      var step := ApplyOperations(registry, proposer, openedSeq, t, ops).value;
      ClaimForest(step.tables, order + ClaimOrder(step.events))
    decreases |ops|
  {
    if ops == [] {
      AppendNothing(order);
    } else {
      var n := |ops| - 1;
      OperationsKeepClaimForest(registry, proposer, openedSeq, t, ops[..n], order);
      OperationsRefine(registry, proposer, openedSeq, t, ops[..n]);
      var before := ApplyOperations(registry, proposer, openedSeq, t, ops[..n]).value;
      var step := ApplyOperation(registry, proposer, openedSeq, before.tables, ops[n]).value;
      OperationKeepsClaimForest(registry, proposer, openedSeq, before.tables, ops[n],
          order + ClaimOrder(before.events));
      OrderOfTwo(order, before.events, step.events);
    }
  }

  lemma {:induction false} ReachableClaimForest(env: Env, inputs: seq<Submission>)
    requires FamiliesNamePredicate(env.registry)
    ensures
      var state := Run(env, EMPTY_STATE, inputs);
      ClaimForest(state.tables, ClaimOrder(History(state.ledger)))
    decreases |inputs|
  {
    if inputs != [] {
      var n := |inputs| - 1;
      ReachableClaimForest(env, inputs[..n]);
      var before := Run(env, EMPTY_STATE, inputs[..n]);
      CommitEffect(env, before, inputs[n]);
      if Accepts(env, before, inputs[n]) {
        ReachableIsGood(env, inputs[..n]);
        var p := inputs[n].proposal;
        OperationsKeepClaimForest(env.registry, p.proposer, |before.ledger| + 1, before.tables, p.operations,
            ClaimOrder(History(before.ledger)));
        var applied := ApplyOperations(env.registry, p.proposer, |before.ledger| + 1, before.tables,
            p.operations).value;
        ClaimOrderAppend(History(before.ledger), applied.events);
      }
    }
  }

  /** In every reachable state, claim supersession is such a forest too, and following it from
      any claim ends at an active or a retracted one. */
  /** Following the links of a forest from a claim ends at one that is not superseded. */
  lemma ClaimChainEnds(registry: Registry, t: Tables, order: seq<Id>, c: Id)
    requires R.Sound(registry, t) && ClaimForest(t, order) && c in t.claims
    ensures
      var links := ClaimLinks(t.claims);
      exists n: nat :: Follow(links, c, n) in t.claims && t.claims[Follow(links, c, n)].status in {Active, Retracted}
  {
    var links := ClaimLinks(t.claims);
    assert c in links;
    var i :| 0 <= i < |order| && order[i] == c;
    ChainEnds(links, order, i);
    var n: nat :| Follow(links, order[i], n) in links && links[Follow(links, order[i], n)].None?;
    assert t.claims[Follow(links, c, n)].status != Superseded;
  }

  lemma ClaimsFormForest(env: Env, inputs: seq<Submission>, c: Id)
    requires FamiliesNamePredicate(env.registry)
    requires c in Run(env, EMPTY_STATE, inputs).tables.claims
    ensures
      var state := Run(env, EMPTY_STATE, inputs);
      var links := ClaimLinks(state.tables.claims);
      && ClaimForest(state.tables, ClaimOrder(History(state.ledger)))
      && exists n: nat :: Follow(links, c, n) in state.tables.claims
           && state.tables.claims[Follow(links, c, n)].status in {Active, Retracted}
  {
    var state := Run(env, EMPTY_STATE, inputs);
    ReachableIsGood(env, inputs);
    ReachableClaimForest(env, inputs);
    ClaimChainEnds(env.registry, state.tables, ClaimOrder(History(state.ledger)), c);
  }
}
