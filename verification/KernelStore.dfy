/** The kernel as the mutable object it is: tables updated in place inside a transaction,
    events and conflict identifiers appended as operations run, rollback on any failure.
    Every method is proved against the reducer or the commit function it implements. */
module KernelStore {
  import opened Wrappers
  import opened Domain
  import opened Rules
  import opened Reducers
  import opened Preconditions
  import opened Ledger
  import opened Invariant
  import opened Refinement
  import Continuity
  import Prediction
  import R = Replay
  import opened Sequences
  import Verification

  class Kernel {
    const env: Env

    var sources: map<Id, SourceRow>
    var claims: map<Id, ClaimRow>
    var evidence: map<Id, EvidenceRow>
    var conflicts: map<Id, ConflictRow>
    var decisions: map<Id, DecisionRow>
    var questions: map<Id, QuestionRow>
    var workItems: map<Id, WorkItemRow>
    var ledger: seq<Entry>
    var receipts: seq<Receipt>

    // the transaction in progress
    var currentProposer: Actor
    var currentOpenedSeq: nat
    var events: seq<Event>
    var touched: seq<Id>

    function Db(): Tables
      reads this
    {
      Tables(sources, claims, evidence, conflicts, decisions, questions, workItems)
    }

    ghost function Snapshot(): State
      reads this
    {
      State(Db(), ledger, receipts)
    }

    ghost predicate Valid()
      reads this
    {
      FamiliesNamePredicate(env.registry) && Coherent(env.contract) && Good(env, Snapshot())
    }

    constructor (env: Env)
      ensures Snapshot() == EMPTY_STATE && this.env == env
      ensures FamiliesNamePredicate(env.registry) && Coherent(env.contract) ==> Valid()
    {
      this.env := env;
      sources, claims, evidence, conflicts := map[], map[], map[], map[];
      decisions, questions, workItems := map[], map[], map[];
      ledger, receipts := [], [];
      currentProposer, currentOpenedSeq, events, touched := Actor("", Service), 0, [], [];
      new;
      EmptyIsGood(env);
    }

    /** The database and the two lists are what a reducer says, or the failure was returned. */
    ghost predicate Did(r: Result<Step, Failure>, events0: seq<Event>, touched0: seq<Id>, error: Option<Failure>)
      reads this
    {
      match r
      case Err(failure) => error == Some(failure)
      case Ok(step) =>
        error.None? && Db() == step.tables && events == events0 + step.events && touched == touched0 + step.touched
    }

    // ------------------------------------------------------------------- sources

    method RegisterSourceRevision(source: Source) returns (error: Option<Failure>)
      modifies this`sources, this`events
      ensures Did(Single(PutSource(old(Db()), source), SourceRevisionRegistered(source)), old(events), old(touched),
          error)
    {
      var content: seq<Utf8.byte>;
      if source.revisionId in sources {
        var existing := sources[source.revisionId];
        if existing.contentHash != source.contentHash {
          return Some(Invalid(SourceRevisionImmutabilityViolation));
        }
        content := existing.content;
      } else if source.blob.None? {
        return Some(Invalid(SourceContentUnavailable));
      } else {
        content := source.blob.value;
      }
      if ContentHash(content) != source.contentHash {
        return Some(Invalid(SourceContentHashMismatch));
      }
      if source.revisionId !in sources {
        sources := sources[source.revisionId := SourceRow(source.contentHash, source, content)];
      }
      events := events + [SourceRevisionRegistered(source)];
      return None;
    }

    // ------------------------------------------------------------------ evidence

    method ValidateAndInsertEvidence(link: EvidenceLink, claimId: Id) returns (error: Option<Failure>)
      modifies this`evidence
      ensures match InsertLink(old(Db()), link, claimId)
              case Err(failure) => error == Some(failure)
              case Ok(after) => error.None? && Db() == after
    {
      if link.claimId != claimId {
        return Some(Invalid(EvidenceClaimMismatch));
      }
      if link.sourceRevisionId !in sources {
        return Some(Invalid(SourceRevisionNotFound));
      }
      var mismatch := SelectorError(sources[link.sourceRevisionId].content, link.selector);
      if mismatch.Some? {
        return Some(Invalid(mismatch.value));
      }
      if link.evidenceLinkId in evidence {
        return Some(Invalid(DuplicateObjectId));
      }
      evidence := evidence[link.evidenceLinkId := EvidenceRow(claimId, link.sourceRevisionId, link)];
      return None;
    }

    method AttachEvidence(link: EvidenceLink) returns (error: Option<Failure>)
      modifies this`evidence, this`claims, this`events
      ensures Did(Single(AttachLink(env.registry, old(Db()), link), EvidenceAttached(link)), old(events), old(touched),
          error)
    {
      if link.claimId !in claims || claims[link.claimId].status != Active {
        return Some(Stale(ClaimStatusMismatch));
      }
      var row := claims[link.claimId];
      if !Known(env.registry, row.proposition) {
        return Some(Invalid(UnknownPredicate));
      }
      if !InterpretationsAllowed(env.registry.predicates[row.proposition.predicateKey], [link]) {
        return Some(Invalid(EvidenceInterpretationNotAllowed));
      }
      error := ValidateAndInsertEvidence(link, link.claimId);
      if error.None? {
        claims := claims[link.claimId := row.(version := row.version + 1)];
        events := events + [EvidenceAttached(link)];
      }
    }

    // -------------------------------------------------------------------- claims

    /** Checks shared by live assertion and replay, then the claim row and its evidence. */
    method AdmitClaim(claim: Claim, links: seq<EvidenceLink>) returns (error: Option<Failure>)
      modifies this`claims, this`evidence
      ensures match Reducers.AdmitClaim(env.registry, old(Db()), claim, links)
              case Err(failure) => error == Some(failure)
              case Ok(after) => error.None? && Db() == after
    {
      var refused := ClaimError(env.registry, claim, links);
      if refused.Some? {
        return Some(Invalid(refused.value));
      }
      if claim.claimId in claims {
        return Some(Invalid(DuplicateObjectId));
      }
      claims := claims[claim.claimId := FreshClaimRow(claim)];
      ghost var inserted := Db();
      for i := 0 to |links|
        invariant InsertLinks(inserted, links[..i], claim.claimId) == Ok(Db())
        invariant claims == inserted.claims
      {
        assert links[..i + 1][..i] == links[..i];
        error := ValidateAndInsertEvidence(links[i], claim.claimId);
        if error.Some? {
          FailedPrefix(inserted, links, claim.claimId, i + 1);
          return;
        }
      }
      assert links[..|links|] == links;
      return None;
    }

    static lemma {:induction false} FailedPrefix(t: Tables, links: seq<EvidenceLink>, claimId: Id, n: nat)
      requires n <= |links| && InsertLinks(t, links[..n], claimId).Err?
      ensures InsertLinks(t, links, claimId) == InsertLinks(t, links[..n], claimId)
      decreases |links|
    {
      if n < |links| {
        var m := |links| - 1;
        assert links[..m][..n] == links[..n];
        FailedPrefix(t, links[..m], claimId, n);
      } else {
        assert links[..n] == links;
      }
    }

    /** The contradicting active claims of the family, grouped by the kind of conflict. */
    method GroupRivals(incoming: Claim, def: Predicate, ignored: set<Id>)
        returns (exclusive: set<Id>, polarity: set<Id>)
      ensures exclusive == Rivals(claims, incoming, def, ignored, ExclusiveValue)
      ensures polarity == Rivals(claims, incoming, def, ignored, PolarityClash)
    {
      exclusive, polarity := {}, {};
      var family := FamilyKeyUnder(incoming.proposition, def);
      var rest := claims.Keys;
      while rest != {}
        invariant rest <= claims.Keys
        invariant exclusive == Rivals(claims, incoming, def, ignored, ExclusiveValue) - rest
        invariant polarity == Rivals(claims, incoming, def, ignored, PolarityClash) - rest
      {
        var c :| c in rest;
        rest := rest - {c};
        var row := claims[c];
        if c != incoming.claimId && row.status == Active && c !in ignored
            && FamilyKeyUnder(row.proposition, def) == family {
          var kind := KindOfConflict(incoming.proposition, row.proposition, def);
          if kind == Some(ExclusiveValue) {
            exclusive := exclusive + {c};
          } else if kind == Some(PolarityClash) {
            polarity := polarity + {c};
          }
        }
      }
    }

    /** Merge into the open conflict of this family and kind, reopen a resolved one, or insert. */
    method OpenOrMerge(family: FamilyKey, kind: ConflictKind, members: set<Id>) returns (c: Id)
      requires R.Sound(env.registry, Db())
      requires members != {} && R.OneFamily(env.registry, claims, members, family) && ConflictOf(members) !in conflicts
      modifies this`conflicts, this`events, this`touched
      ensures c in conflicts && OpenRow(old(conflicts), family, kind, members,
          currentOpenedSeq) == Ok((c, conflicts[c]))
      ensures conflicts == old(conflicts)[c := conflicts[c]]
      ensures events == old(events) + [ConflictOpened(Document(c, conflicts[c]))] && touched == old(touched) + [c]
    {
      ghost var before := conflicts;
      if open :| open in conflicts && Holds(conflicts, open, family, kind, Open) {
        c := open;
        assert Find(before, family, kind, Open) == Some(c);
        conflicts := conflicts[c := MergedRow(conflicts[c], members)];
      } else if closed :| closed in conflicts && Holds(conflicts, closed, family, kind, Resolved) {
        c := closed;
        assert Find(before, family, kind, Open) == None && Find(before, family, kind, Resolved) == Some(c);
        conflicts := conflicts[c := ReopenedRow(conflicts[c], members, currentOpenedSeq)];
      } else {
        c := ConflictOf(members);
        assert Find(before, family, kind, Open) == None && Find(before, family, kind, Resolved) == None;
        conflicts := conflicts[c := FirstRow(family, kind, members, currentOpenedSeq)];
      }
      events := events + [ConflictOpened(Document(c, conflicts[c]))];
      touched := touched + [c];
    }

    method OpenConflicts(incoming: Claim, def: Predicate, ignored: set<Id>) returns (error: Option<Failure>)
      requires FamiliesNamePredicate(env.registry) && R.Sound(env.registry, Db())
      requires Known(env.registry, incoming.proposition)
          && def == env.registry.predicates[incoming.proposition.predicateKey]
      requires incoming.claimId in claims && claims[incoming.claimId].proposition == incoming.proposition
      requires forall c :: c in conflicts && c.ConflictOf? ==> incoming.claimId !in c.firstMembers
      modifies this`conflicts, this`events, this`touched
      ensures Did(Reducers.OpenConflicts(old(Db()), incoming, def, ignored, currentOpenedSeq), old(events),
          old(touched), error)
    {
      var exclusive, polarity := GroupRivals(incoming, def, ignored);
      SecondKindIsFresh(env.registry, Db(), incoming, ignored, currentOpenedSeq);
      R.OpenKindSound(env.registry, Db(), incoming, ignored, ExclusiveValue, currentOpenedSeq);
      ghost var before := Db();
      OpenKind(incoming, def, ignored, ExclusiveValue, exclusive);
      ghost var first := Reducers.OpenKind(before, incoming, def, ignored, ExclusiveValue, currentOpenedSeq).value;
      OpenKind(incoming, def, ignored, PolarityClash, polarity);
      ghost var second := Reducers.OpenKind(first.tables, incoming, def, ignored, PolarityClash, currentOpenedSeq);
      if second.Ok? {
        Reassociate(old(events), first.events, second.value.events);
        Reassociate(old(touched), first.touched, second.value.touched);
      }
      return None;
    }

    method OpenKind(incoming: Claim, def: Predicate, ghost ignored: set<Id>, kind: ConflictKind, rivals: set<Id>)
      requires FamiliesNamePredicate(env.registry) && R.Sound(env.registry, Db())
      requires Known(env.registry, incoming.proposition)
          && def == env.registry.predicates[incoming.proposition.predicateKey]
      requires incoming.claimId in claims && claims[incoming.claimId].proposition == incoming.proposition
      requires rivals == Rivals(claims, incoming, def, ignored, kind)
      requires ConflictOf(R.MembersOf(env.registry, Db(), incoming, ignored, kind)) !in conflicts
      modifies this`conflicts, this`events, this`touched
      ensures Did(Reducers.OpenKind(old(Db()), incoming, def, ignored, kind, currentOpenedSeq), old(events),
          old(touched), None)
    {
      if rivals != {} {
        R.RivalsShareFamily(env.registry, claims, incoming, ignored, kind);
        var c := OpenOrMerge(FamilyKeyUnder(incoming.proposition, def), kind, rivals + {incoming.claimId});
      }
    }

    method AssertClaim(claim: Claim, links: seq<EvidenceLink>, ignored: set<Id>) returns (error: Option<Failure>)
      requires FamiliesNamePredicate(env.registry) && R.Sound(env.registry, Db())
      modifies this`claims, this`evidence, this`conflicts, this`events, this`touched
      ensures Did(AssertNewClaim(env.registry, old(Db()), claim, links, ignored, currentOpenedSeq), old(events),
          old(touched), error)
    {
      ghost var before := Db();
      error := AdmitClaim(claim, links);
      if error.None? {
        AdmitClaimSound(env.registry, before, claim, links);
        events := events + [ClaimAsserted(claim, links)];
        ghost var admitted, recorded := Db(), events;
        error := OpenConflicts(claim, env.registry.predicates[claim.proposition.predicateKey], ignored);
        OpenConflictsRefines(env.registry, admitted, claim, ignored, currentOpenedSeq);
        Reassociate(old(events), [ClaimAsserted(claim, links)], events[|recorded|..]);
      }
    }

    method SupersedeClaim(target: Id, replacement: Claim, links: seq<EvidenceLink>, rationale: string)
        returns (error: Option<Failure>)
      requires FamiliesNamePredicate(env.registry) && R.Sound(env.registry, Db())
      modifies this`claims, this`evidence, this`conflicts, this`events, this`touched
      ensures Did(ReplaceClaim(env.registry, old(Db()), target, replacement, links, rationale, currentOpenedSeq),
          old(events), old(touched), error)
    {
      if target !in claims || claims[target].status != Active {
        return Some(Stale(ClaimStatusMismatch));
      }
      ghost var before := Db();
      error := AssertClaim(replacement, links, {target});
      if error.None? {
        ghost var step := AssertNewClaim(env.registry, before, replacement, links, {target}, currentOpenedSeq).value;
        ReplacementFrom(env.registry, before, target, replacement, links, rationale, currentOpenedSeq, step);
        claims := claims[target := SupersededRow(claims[target], replacement.claimId)];
        Reassociate(old(events), step.events, [ClaimSuperseded(target, replacement.claimId, rationale)]);
        events := events + [ClaimSuperseded(target, replacement.claimId, rationale)];
      }
    }

    method RetractClaim(target: Id, links: seq<Id>, policy: string, rationale: string) returns (error: Option<Failure>)
      modifies this`claims, this`events
      ensures Did(Single(WithdrawClaim(old(Db()), currentProposer, target, links),
          ClaimRetracted(target, currentProposer, policy, rationale)),
                  old(events), old(touched), error)
    {
      if target !in claims || claims[target].status != Active {
        return Some(Stale(ClaimStatusMismatch));
      }
      if !Authorized(currentProposer, claims[target].document.assertedBy) {
        return Some(Invalid(ActorNotAuthorized));
      }
      for i := 0 to |links|
        invariant EvidenceOf(Db(), links[..i], {target})
      {
        if links[i] !in evidence || evidence[links[i]].claimId != target {
          return Some(Invalid(EvidenceReferenceNotFound));
        }
        assert links[..i + 1] == links[..i] + [links[i]];
      }
      assert links[..|links|] == links;
      claims := claims[target := RetractedRow(claims[target])];
      events := events + [ClaimRetracted(target, currentProposer, policy, rationale)];
      return None;
    }

    method ResolveConflict(c: Id, expected: MemberDigest, resolution: Resolution) returns (error: Option<Failure>)
      modifies this`conflicts, this`events
      ensures Did(Single(SettleConflict(old(Db()), currentProposer, c, expected, resolution),
          ConflictResolved(c, resolution)),
                  old(events), old(touched), error)
    {
      if c !in conflicts || conflicts[c].status != Open {
        return Some(Stale(ConflictStatusMismatch));
      }
      var row := conflicts[c];
      if row.memberDigest != expected {
        return Some(Stale(ConflictMemberDigestMismatch));
      }
      if resolution.resolutionEpoch != row.episode {
        return Some(Stale(ConflictResolutionEpochMismatch));
      }
      if !Authorized(currentProposer, resolution.resolver) {
        return Some(Invalid(ActorNotAuthorized));
      }
      if resolution.selected * resolution.rejected != {} || resolution.selected + resolution.rejected != row.members {
        return Some(Invalid(InvalidConflictResolution));
      }
      var links := resolution.evidenceLinkIds;
      for i := 0 to |links|
        invariant EvidenceOf(Db(), links[..i], row.members)
      {
        if links[i] !in evidence || evidence[links[i]].claimId !in row.members {
          return Some(Invalid(EvidenceReferenceNotFound));
        }
        assert links[..i + 1] == links[..i] + [links[i]];
      }
      assert links[..|links|] == links;
      conflicts := conflicts[c := ResolvedRow(row, resolution)];
      events := events + [ConflictResolved(c, resolution)];
      return None;
    }

    // ---------------------------------------------------------------- continuity

    /** A continuity reducer changed the database and appended its event, or failed. */
    ghost predicate Reduced(r: Result<Continuity.Change, Failure>, events0: seq<Event>, error: Option<Failure>)
      reads this
    {
      match r
      case Err(failure) => error == Some(failure)
      case Ok(change) => error.None? && Db() == change.tables && events == events0 + [change.event]
    }

    method NewDecision(decision: Decision) returns (error: Option<Failure>)
      ensures error == Continuity.NewDecision(Db(), decision)
    {
      if decision.status != DecisionActive || decision.version != 1 || decision.replacedBy.Some? {
        return Some(Invalid(InvalidNewDecisionState));
      }
      if decision.decisionId in decisions {
        return Some(Invalid(DuplicateObjectId));
      }
      return None;
    }

    method RecordDecision(decision: Decision) returns (error: Option<Failure>)
      modifies this`decisions, this`events
      ensures Reduced(Continuity.RecordDecision(old(Db()), decision), old(events), error)
    {
      error := NewDecision(decision);
      if error.None? {
        decisions := decisions[decision.decisionId := DecisionRow(decision.status, 1, decision.replacedBy, decision)];
        events := events + [DecisionRecorded(decision)];
      }
    }

    method SupersedeDecision(target: Id, disposition: DecisionStatus, replacement: Decision, rationale: string)
        returns (error: Option<Failure>)
      modifies this`decisions, this`events
      ensures Reduced(Continuity.SupersedeDecision(old(Db()), target, disposition, replacement, rationale),
          old(events), error)
    {
      if disposition != DecisionSuperseded && disposition != DecisionReversed {
        return Some(Invalid(InvalidDecisionDisposition));
      }
      if target !in decisions || decisions[target].status != DecisionActive {
        return Some(Stale(DecisionStatusMismatch));
      }
      error := NewDecision(replacement);
      if error.Some? {
        return;
      }
      var previous := decisions[target].version;
      var document := decisions[target].document.(status := disposition, version := previous + 1,
          replacedBy := Some(replacement.decisionId));
      decisions := decisions[replacement.decisionId :=
          DecisionRow(replacement.status, 1, replacement.replacedBy, replacement)];
      decisions := decisions[target := DecisionRow(disposition, previous + 1, Some(replacement.decisionId), document)];
      events := events + [DecisionReplaced(target, disposition, replacement, rationale, previous, previous + 1)];
    }

    method OpenQuestion(question: Question) returns (error: Option<Failure>)
      modifies this`questions, this`events
      ensures Reduced(Continuity.OpenQuestion(old(Db()), question), old(events), error)
    {
      if question.status != QuestionOpen || question.version != 1 || question.answer.Some? || question.drop.Some? {
        return Some(Invalid(InvalidNewQuestionState));
      }
      if question.questionId in questions {
        return Some(Invalid(DuplicateObjectId));
      }
      questions := questions[question.questionId := QuestionRow(question.status, 1, None, None, question)];
      events := events + [QuestionOpened(question)];
      return None;
    }

    method AnswerQuestion(target: Id, answer: Answer) returns (error: Option<Failure>)
      modifies this`questions, this`events
      ensures Reduced(Continuity.AnswerQuestion(old(Db()), target, answer), old(events), error)
    {
      if target !in questions || questions[target].status != QuestionOpen {
        return Some(Stale(QuestionStatusMismatch));
      }
      var previous := questions[target].version;
      var document := questions[target].document.(status := QuestionAnswered, version := previous + 1,
          answer := Some(answer), drop := None);
      questions := questions[target := QuestionRow(QuestionAnswered, previous + 1, Some(answer), None, document)];
      events := events + [QuestionAnsweredEvent(target, answer, previous, previous + 1)];
      return None;
    }

    method DropQuestion(target: Id, drop: Drop) returns (error: Option<Failure>)
      modifies this`questions, this`events
      ensures Reduced(Continuity.DropQuestion(old(Db()), target, drop), old(events), error)
    {
      if target !in questions || questions[target].status != QuestionOpen {
        return Some(Stale(QuestionStatusMismatch));
      }
      var previous := questions[target].version;
      var document := questions[target].document.(status := QuestionDropped, version := previous + 1, answer := None,
          drop := Some(drop));
      questions := questions[target := QuestionRow(QuestionDropped, previous + 1, None, Some(drop), document)];
      events := events + [QuestionDroppedEvent(target, drop, previous, previous + 1)];
      return None;
    }

    method CreateWorkItem(item: WorkItem) returns (error: Option<Failure>)
      modifies this`workItems, this`events
      ensures Reduced(Continuity.CreateWorkItem(old(Db()), item), old(events), error)
    {
      if item.status != Todo || item.version != 1 || item.blocker.Some? {
        return Some(Invalid(InvalidNewWorkItemState));
      }
      if item.workItemId in workItems {
        return Some(Invalid(DuplicateObjectId));
      }
      workItems := workItems[item.workItemId := WorkItemRow(item.status, 1, item.blocker, item.updatedAt, item)];
      events := events + [WorkItemCreated(item)];
      return None;
    }

    method UpdateWorkItemStatus(target: Id, status: WorkStatus, blocker: Option<string>, rationale: string,
        updatedBy: Actor, updatedAt: Time)
      returns (error: Option<Failure>)
      modifies this`workItems, this`events
      ensures Reduced(Continuity.UpdateWorkItem(old(Db()), target, status, blocker, rationale, updatedBy, updatedAt),
          old(events), error)
    {
      if status.WorkOther? {
        return Some(Invalid(InvalidWorkItemStatus));
      }
      if (status == Blocked) != (blocker.Some? && blocker.value != "") {
        return Some(Invalid(InvalidWorkItemBlocker));
      }
      if target !in workItems {
        return Some(Stale(WorkItemStatusMismatch));
      }
      var row := workItems[target];
      var document := row.document.(status := status, version := row.version + 1, blocker := blocker,
          updatedAt := updatedAt);
      workItems := workItems[target := WorkItemRow(status, row.version + 1, blocker, updatedAt, document)];
      events := events + [WorkItemUpdated(target, row.status, status, blocker, rationale, updatedBy, updatedAt,
          row.version, row.version + 1)];
      return None;
    }

    method ApplyContinuityOperation(op: Operation) returns (error: Option<Failure>)
      requires Continuity.IsContinuityOperation(op)
      modifies this`decisions, this`questions, this`workItems, this`events
      ensures Reduced(Continuity.Apply(old(Db()), op), old(events), error)
    {
      match op
      case RecordDecision(decision) => error := RecordDecision(decision);
      case SupersedeDecision(target, disposition, replacement, rationale) =>
          error := SupersedeDecision(target, disposition, replacement, rationale);
      case OpenQuestion(question) => error := OpenQuestion(question);
      case AnswerQuestion(target, answer) => error := AnswerQuestion(target, answer);
      case DropQuestion(target, drop) => error := DropQuestion(target, drop);
      case CreateWorkItem(item) => error := CreateWorkItem(item);
      case UpdateWorkItem(target, status, blocker, rationale, who, time) =>
        error := UpdateWorkItemStatus(target, status, blocker, rationale, who, time);
    }

    // ---------------------------------------------------------------- operations

    method ApplyOperation(op: Operation) returns (error: Option<Failure>)
      requires FamiliesNamePredicate(env.registry) && R.Sound(env.registry, Db())
      modifies this`sources, this`claims, this`evidence, this`conflicts, this`decisions, this`questions,
          this`workItems, this`events, this`touched
      ensures Did(Reducers.ApplyOperation(env.registry, currentProposer, currentOpenedSeq, old(Db()), op), old(events),
          old(touched), error)
    {
      if Continuity.IsContinuityOperation(op) {
        error := ApplyContinuityOperation(op);
        return;
      }
      match op
      case RegisterSource(source) => error := RegisterSourceRevision(source);
      case AssertClaim(claim, links) => error := AssertClaim(claim, links, {});
      case AttachEvidence(link) => error := AttachEvidence(link);
      case SupersedeClaim(target, replacement, links, rationale) =>
          error := SupersedeClaim(target, replacement, links, rationale);
      case RetractClaim(target, links, policy, rationale) => error := RetractClaim(target, links, policy, rationale);
      case ResolveConflict(c, expected, resolution) => error := ResolveConflict(c, expected, resolution);
      case _ => error := Some(Invalid(UnsupportedOperationCode));
    }

    // ------------------------------------------------- checks before anything is applied

    method ValidateRequiredOperationReads(p: Proposal) returns (missing: Option<Code>)
      ensures missing == MissingRead(p.readSet, p.operations)
    {
      for i := 0 to |p.operations|
        invariant MissingRead(p.readSet, p.operations[..i]) == None
      {
        assert p.operations[..i + 1][..i] == p.operations[..i];
        var required := RequiredRead(p.operations[i]);
        if required.Some? && !Pins(p.readSet, required.value) {
          missing := Some(MissingReadCode(required.value.kind));
          MissingStays(p.readSet, p.operations, i + 1);
          return;
        }
      }
      assert p.operations[..|p.operations|] == p.operations;
      return None;
    }

    static lemma {:induction false} MissingStays(readSet: seq<Read>, ops: seq<Operation>, n: nat)
      requires n <= |ops| && MissingRead(readSet, ops[..n]).Some?
      ensures MissingRead(readSet, ops) == MissingRead(readSet, ops[..n])
      decreases |ops|
    {
      if n < |ops| {
        assert ops[..|ops| - 1][..n] == ops[..n];
        MissingStays(readSet, ops[..|ops| - 1], n);
      } else {
        assert ops[..n] == ops;
      }
    }

    method ValidateReads(readSet: seq<Read>) returns (stale: Option<Code>)
      ensures stale == ReadsError(env.registry, Db(), readSet)
    {
      for i := 0 to |readSet|
        invariant ReadsError(env.registry, Db(), readSet[..i]) == None
      {
        assert readSet[..i + 1][..i] == readSet[..i];
        stale := ReadError(env.registry, Db(), readSet[i]);
        if stale.Some? {
          StaleReadStays(env.registry, Db(), readSet, i + 1);
          return;
        }
      }
      assert readSet[..|readSet|] == readSet;
      return None;
    }

    method ValidateGuards(guards: seq<Guard>) returns (stale: Option<Code>)
      ensures stale == GuardsError(env.registry, Db(), guards)
    {
      for i := 0 to |guards|
        invariant GuardsError(env.registry, Db(), guards[..i]) == None
      {
        assert guards[..i + 1][..i] == guards[..i];
        stale := GuardError(env.registry, Db(), guards[i]);
        if stale.Some? {
          StaleGuardStays(env.registry, Db(), guards, i + 1);
          return;
        }
      }
      assert guards[..|guards|] == guards;
      return None;
    }

    method ValidateReadsAndGuards(p: Proposal) returns (stale: Option<Code>)
      ensures stale == ReadsAndGuardsError(env.registry, Db(), p)
    {
      stale := ValidateReads(p.readSet);
      if stale.None? {
        stale := ValidateGuards(p.guards);
      }
    }

    static lemma {:induction false} StaleReadStays(registry: Registry, t: Tables, readSet: seq<Read>, n: nat)
      requires n <= |readSet| && ReadsError(registry, t, readSet[..n]).Some?
      ensures ReadsError(registry, t, readSet) == ReadsError(registry, t, readSet[..n])
      decreases |readSet|
    {
      if n < |readSet| {
        assert readSet[..|readSet| - 1][..n] == readSet[..n];
        StaleReadStays(registry, t, readSet[..|readSet| - 1], n);
      } else {
        assert readSet[..n] == readSet;
      }
    }

    static lemma {:induction false} StaleGuardStays(registry: Registry, t: Tables, guards: seq<Guard>, n: nat)
      requires n <= |guards| && GuardsError(registry, t, guards[..n]).Some?
      ensures GuardsError(registry, t, guards) == GuardsError(registry, t, guards[..n])
      decreases |guards|
    {
      if n < |guards| {
        assert guards[..|guards| - 1][..n] == guards[..n];
        StaleGuardStays(registry, t, guards[..|guards| - 1], n);
      } else {
        assert guards[..n] == guards;
      }
    }

    // ---------------------------------------------------------------- prediction

    /** The contradicting active claims in the simulated state, grouped by kind. */
    static method GroupPredictedRivals(active: map<Id, Proposition>, incoming: Claim, def: Predicate, ignored: set<Id>)
      returns (exclusive: set<Id>, polarity: set<Id>)
      ensures exclusive == Prediction.PredictedRivals(active, incoming, def, ignored, ExclusiveValue)
      ensures polarity == Prediction.PredictedRivals(active, incoming, def, ignored, PolarityClash)
    {
      exclusive, polarity := {}, {};
      var rest := active.Keys;
      while rest != {}
        invariant rest <= active.Keys
        invariant exclusive == Prediction.PredictedRivals(active, incoming, def, ignored, ExclusiveValue) - rest
        invariant polarity == Prediction.PredictedRivals(active, incoming, def, ignored, PolarityClash) - rest
      {
        var c :| c in rest;
        rest := rest - {c};
        if c !in ignored && FamilyKeyUnder(active[c], def) == FamilyKeyUnder(incoming.proposition, def) {
          var kind := KindOfConflict(incoming.proposition, active[c], def);
          if kind == Some(ExclusiveValue) {
            exclusive := exclusive + {c};
          } else if kind == Some(PolarityClash) {
            polarity := polarity + {c};
          }
        }
      }
    }

    method PredictIncoming(f: Prediction.Forecast, incoming: Claim, ignored: set<Id>) returns (f': Prediction.Forecast)
      ensures f' == Prediction.PredictClaim(env.registry, f, incoming, ignored)
    {
      f' := f;
      if !Known(env.registry, incoming.proposition) {
        return;
      }
      var def := env.registry.predicates[incoming.proposition.predicateKey];
      var family := FamilyKeyUnder(incoming.proposition, def);
      var exclusive, polarity := GroupPredictedRivals(f.active, incoming, def, ignored);
      if exclusive != {} {
        f' := Prediction.Noted(f', (family, ExclusiveValue), exclusive + {incoming.claimId});
      }
      if polarity != {} {
        f' := Prediction.Noted(f', (family, PolarityClash), polarity + {incoming.claimId});
      }
      f' := f'.(active := f'.active[incoming.claimId := incoming.proposition] - ignored);
    }

    method IndexEpisodes() returns (episodes: map<(FamilyKey, ConflictKind), (Id, set<Id>)>)
      ensures episodes == Prediction.Episodes(conflicts)
    {
      episodes := map[];
      var rest := conflicts.Keys;
      while rest != {}
        invariant rest <= conflicts.Keys
        invariant forall c, d :: c in conflicts && c !in rest && d in rest ==> Prediction.Precedes(conflicts, c, d)
        invariant forall key ::
            key in episodes <==> exists c :: c in conflicts && c !in rest && c in Prediction.RowsOf(conflicts, key)
        invariant forall key ::
            key in episodes ==> Prediction.IsFirst(conflicts, Prediction.RowsOf(conflicts, key), episodes[key].0)
        invariant forall key :: key in episodes ==> episodes[key].1 == conflicts[episodes[key].0].members
      {
        Prediction.SomeFirst(conflicts, rest);
        ghost var first :| Prediction.IsFirst(conflicts, rest, first);
        var c :| c in rest && forall d :: d in rest ==> d == c || Prediction.Precedes(conflicts, c, d);
        var key := (conflicts[c].familyKey, conflicts[c].kind);
        rest := rest - {c};
        if key !in episodes {
          episodes := episodes[key := (c, conflicts[c].members)];
        }
      }
      IndexIsEpisodes(conflicts, episodes);
    }

    static lemma IndexIsEpisodes(conflicts: map<Id, ConflictRow>, episodes: map<(FamilyKey, ConflictKind),
        (Id, set<Id>)>)
      requires forall key :: key in episodes <==> exists c :: c in Prediction.RowsOf(conflicts, key)
      requires forall key :: key in episodes ==>
                 && Prediction.IsFirst(conflicts, Prediction.RowsOf(conflicts, key), episodes[key].0)
                 && episodes[key].1 == conflicts[episodes[key].0].members
      ensures episodes == Prediction.Episodes(conflicts)
    {
      var expected := Prediction.Episodes(conflicts);
      forall key
        ensures key in episodes <==> key in expected
        ensures key in episodes ==> episodes[key] == expected[key]
      {
        if key in episodes {
          Prediction.OneFirst(conflicts, Prediction.RowsOf(conflicts, key), episodes[key].0,
              Prediction.FirstOf(conflicts, key));
        }
        if key in expected {
          assert Prediction.FirstOf(conflicts, key) in Prediction.RowsOf(conflicts, key);
        }
      }
    }

    method PredictedConflictIds(ops: seq<Operation>) returns (predicted: set<Id>)
      ensures predicted == Prediction.Predicted(env.registry, Db(), ops)
    {
      var episodes := IndexEpisodes();
      var start := Prediction.Forecast(Prediction.ActiveClaims(claims), episodes, {});
      var f := start;
      for i := 0 to |ops|
        invariant f == Prediction.PredictOperations(env.registry, start, ops[..i])
      {
        assert ops[..i + 1][..i] == ops[..i];
        match ops[i]
        case AssertClaim(claim, _) => f := PredictIncoming(f, claim, {});
        case SupersedeClaim(target, replacement, _, _) => f := PredictIncoming(f, replacement, {target});
        case RetractClaim(target, _, _, _) => f := f.(active := f.active - {target});
        case _ =>
      }
      assert ops[..|ops|] == ops;
      predicted := f.ids;
    }

    // ---------------------------------------------------------------- references

    static predicate Resolves(t: Tables, introduced: set<RecordRef>, predicted: set<Id>, ref: RecordRef) {
      || Exists(t, ref.recordType, ref.recordId)
      || ref in introduced
      || (ref.recordType == ConflictRecord && ref.recordId in predicted)
    }

    ghost predicate Resolver(ops: seq<Operation>, introduced: set<RecordRef>, predicted: set<Id>)
      reads this
    {
      forall ref :: Resolves(Db(), introduced, predicted, ref) <==> InNamespace(env.registry, Db(), ops, ref)
    }

    method Require(ops: seq<Operation>, introduced: set<RecordRef>, predicted: set<Id>, ref: RecordRef)
        returns (error: Option<Code>)
      requires Resolver(ops, introduced, predicted)
      ensures error == ReferenceError(env.registry, Db(), ops, ref)
    {
      if Resolves(Db(), introduced, predicted, ref) {
        return None;
      }
      if exists other: RecordType :: Resolves(Db(), introduced, predicted, RecordRef(other, ref.recordId)) {
        return Some(ReferenceTypeMismatch);
      }
      return Some(ReferenceNotFound);
    }

    method IntroducedRecords(ops: seq<Operation>) returns (introduced: set<RecordRef>)
      ensures forall ref :: ref in introduced <==> exists i :: 0 <= i < |ops| && Introduced(ops[i]) == Some(ref)
    {
      introduced := {};
      for i := 0 to |ops|
        invariant forall ref :: ref in introduced <==> exists k :: 0 <= k < i && Introduced(ops[k]) == Some(ref)
      {
        var ref := Introduced(ops[i]);
        if ref.Some? {
          introduced := introduced + {ref.value};
        }
      }
    }

    method ValidateContinuityReferences(ops: seq<Operation>) returns (error: Option<Code>)
      ensures error == ReferencesError(env.registry, Db(), ops)
    {
      var predicted := PredictedConflictIds(ops);
      var introduced := IntroducedRecords(ops);
      error := RequireEvery(ops, introduced, predicted);
    }

    method RequireEvery(ops: seq<Operation>, introduced: set<RecordRef>, predicted: set<Id>)
        returns (error: Option<Code>)
      requires Resolver(ops, introduced, predicted)
      ensures error == ReferencesError(env.registry, Db(), ops)
    {
      for i := 0 to |ops|
        invariant OperationsRefsError(env.registry, Db(), ops, i) == None
      {
        error := RequireAll(ops, introduced, predicted, References(ops[i]));
        if error.Some? {
          DanglingStays(env.registry, Db(), ops, i + 1, |ops|);
          return;
        }
      }
      return None;
    }

    method RequireAll(ops: seq<Operation>, introduced: set<RecordRef>, predicted: set<Id>, refs: seq<RecordRef>)
        returns (error: Option<Code>)
      requires Resolver(ops, introduced, predicted)
      ensures error == RefsError(env.registry, Db(), ops, refs)
    {
      for i := 0 to |refs|
        invariant RefsError(env.registry, Db(), ops, refs[..i]) == None
      {
        assert refs[..i + 1][..i] == refs[..i];
        error := Require(ops, introduced, predicted, refs[i]);
        if error.Some? {
          DanglingRefStays(env.registry, Db(), ops, refs, i + 1);
          return;
        }
      }
      assert refs[..|refs|] == refs;
      return None;
    }

    static lemma {:induction false} DanglingRefStays(registry: Registry, t: Tables, ops: seq<Operation>,
        refs: seq<RecordRef>, n: nat)
      requires n <= |refs| && RefsError(registry, t, ops, refs[..n]).Some?
      ensures RefsError(registry, t, ops, refs) == RefsError(registry, t, ops, refs[..n])
      decreases |refs|
    {
      if n < |refs| {
        assert refs[..|refs| - 1][..n] == refs[..n];
        DanglingRefStays(registry, t, ops, refs[..|refs| - 1], n);
      } else {
        assert refs[..n] == refs;
      }
    }

    static lemma {:induction false} DanglingStays(registry: Registry, t: Tables, ops: seq<Operation>, n: nat, m: nat)
      requires n <= m <= |ops| && OperationsRefsError(registry, t, ops, n).Some?
      ensures OperationsRefsError(registry, t, ops, m) == OperationsRefsError(registry, t, ops, n)
      decreases m - n
    {
      if n < m {
        DanglingStaysOnce(registry, t, ops, n);
        DanglingStays(registry, t, ops, n + 1, m);
      }
    }

    static lemma DanglingStaysOnce(registry: Registry, t: Tables, ops: seq<Operation>, n: nat)
      requires n < |ops| && OperationsRefsError(registry, t, ops, n).Some?
      ensures OperationsRefsError(registry, t, ops, n + 1) == OperationsRefsError(registry, t, ops, n)
    {}

    method CheckProposal(p: Proposal) returns (refused: Option<Failure>)
      ensures refused == Ledger.CheckProposal(env, Db(), p)
    {
      if !env.contract.proposalValid(p) {
        return Some(Invalid(SchemaValidationFailed));
      }
      var versions := VersionsError(env.registry, p.versions);
      if versions.Some? {
        return Some(Invalid(versions.value));
      }
      var missing := ValidateRequiredOperationReads(p);
      if missing.Some? {
        return Some(Invalid(missing.value));
      }
      var stale := ValidateReadsAndGuards(p);
      if stale.Some? {
        return Some(Stale(stale.value));
      }
      var dangling := ValidateContinuityReferences(p.operations);
      if dangling.Some? {
        return Some(Invalid(dangling.value));
      }
      return None;
    }

    // -------------------------------------------------------------------- commit

    /** The receipt document always meets the receipt schema, so storing it never fails. */
    method InsertReceipt(s: Submission, outcome: Outcome, reasons: seq<Code>, entry: Option<Entry>, root: StateRoot,
        conflictIds: set<Id>)
      returns (receipt: Receipt)
      requires Coherent(env.contract) && |reasons| <= 1
      requires entry.Some? <==> Verification.AcceptedOutcome(outcome)
      requires entry.Some? ==> s.Encoded? && env.contract.proposalValid(s.proposal)
      requires outcome == FactConflict ==> conflictIds != {}
      modifies this`receipts
      ensures receipt == MakeReceipt(env.contract, |old(receipts)| + 1, s, outcome, reasons, entry, Head(ledger), root,
          conflictIds)
      ensures Verification.ReceiptSchemaValid(env.contract, receipt.document)
      ensures receipts == old(receipts) + [receipt]
    {
      receipt := MakeReceipt(env.contract, |receipts| + 1, s, outcome, reasons, entry, Head(ledger), root, conflictIds);
      receipts := receipts + [receipt];
    }

    method RejectSubmission(s: Submission, failure: Failure) returns (receipt: Receipt)
      requires Coherent(env.contract)
      modifies this`receipts
      ensures (Snapshot(), receipt) == Reject(env, old(Snapshot()), s, failure)
    {
      receipt := InsertReceipt(s, OutcomeOf(failure), [failure.code], None, StateRoot(Db()), {});
    }

    /** The first receipt stored under a key. */
    method FindPrior(key: string) returns (prior: Option<nat>)
      ensures prior == FirstByKey(receipts, key)
    {
      for i := 0 to |receipts|
        invariant forall k :: 0 <= k < i ==> receipts[k].key != key
      {
        if receipts[i].key == key {
          return Some(i);
        }
      }
      return None;
    }

    /** Apply the operations one by one; on failure the caller rolls back. */
    method ApplyOperations(p: Proposal) returns (error: Option<Failure>)
      requires FamiliesNamePredicate(env.registry) && R.Sound(env.registry, Db())
      modifies this`sources, this`claims, this`evidence, this`conflicts, this`decisions, this`questions, this`workItems,
               this`events, this`touched, this`currentProposer, this`currentOpenedSeq
      ensures match Reducers.ApplyOperations(env.registry, p.proposer, |ledger| + 1, old(Db()), p.operations)
              case Err(failure) => error == Some(failure)
              case Ok(step) => error.None? && Db() == step.tables && events == step.events && touched == step.touched
    {
      ghost var start := Db();
      currentProposer, currentOpenedSeq, events, touched := p.proposer, |ledger| + 1, [], [];
      error := ApplyEach(p.operations, start);
    }

    /** The operations one after the other, up to the first that fails. */
    method ApplyEach(ops: seq<Operation>, ghost start: Tables) returns (error: Option<Failure>)
      requires FamiliesNamePredicate(env.registry) && R.Sound(env.registry, start)
      requires start == Db() && events == [] && touched == []
      modifies this`sources, this`claims, this`evidence, this`conflicts, this`decisions, this`questions, this`workItems,
               this`events, this`touched
      ensures Ended(env.registry, currentProposer, currentOpenedSeq, start, ops, error, Step(Db(), events, touched))
    {
      NothingReached(env.registry, currentProposer, currentOpenedSeq, start, ops);
      for i := 0 to |ops|
        invariant Reached(env.registry, currentProposer, currentOpenedSeq, start, ops, i, Step(Db(), events, touched))
      {
        error := ApplyNext(ops, i, start);
        if error.Some? {
          return;
        }
      }
      AllReached(env.registry, currentProposer, currentOpenedSeq, start, ops, Step(Db(), events, touched));
      return None;
    }

    static ghost predicate Ended(registry: Registry, proposer: Actor, openedSeq: nat, start: Tables,
        ops: seq<Operation>, error: Option<Failure>, step: Step)
    {
      match Reducers.ApplyOperations(registry, proposer, openedSeq, start, ops)
      case Err(failure) => error == Some(failure)
      case Ok(end) => error.None? && step == end
    }

    /** Applying the first `n` operations reaches this step. */
    static ghost predicate Reached(registry: Registry, proposer: Actor, openedSeq: nat, start: Tables,
        ops: seq<Operation>, n: nat, step: Step)
      requires n <= |ops|
    {
      Reducers.ApplyOperations(registry, proposer, openedSeq, start, ops[..n]) == Ok(step)
    }

    static lemma NothingReached(registry: Registry, proposer: Actor, openedSeq: nat, start: Tables, ops: seq<Operation>)
      ensures Reached(registry, proposer, openedSeq, start, ops, 0, Step(start, [], []))
    {}

    static lemma AllReached(registry: Registry, proposer: Actor, openedSeq: nat, start: Tables, ops: seq<Operation>,
        step: Step)
      requires Reached(registry, proposer, openedSeq, start, ops, |ops|, step)
      ensures Ended(registry, proposer, openedSeq, start, ops, None, step)
    {
      assert ops[..|ops|] == ops;
    }

    method ApplyNext(ops: seq<Operation>, i: nat, ghost start: Tables) returns (error: Option<Failure>)
      requires FamiliesNamePredicate(env.registry) && R.Sound(env.registry, start) && i < |ops|
      requires Reached(env.registry, currentProposer, currentOpenedSeq, start, ops, i, Step(Db(), events, touched))
      modifies this`sources, this`claims, this`evidence, this`conflicts, this`decisions, this`questions, this`workItems,
               this`events, this`touched
      ensures error.None? ==>
          Reached(env.registry, currentProposer, currentOpenedSeq, start, ops, i + 1, Step(Db(), events, touched))
      ensures error.Some? ==>
          Ended(env.registry, currentProposer, currentOpenedSeq, start, ops, error, Step(Db(), events, touched))
    {
      OperationsRefine(env.registry, currentProposer, currentOpenedSeq, start, ops[..i]);
      OneMore(env.registry, currentProposer, currentOpenedSeq, start, ops, i);
      error := ApplyOperation(ops[i]);
      if error.Some? {
        FailureStays(env.registry, currentProposer, currentOpenedSeq, start, ops, i + 1);
      }
    }

    static lemma OneMore(registry: Registry, proposer: Actor, openedSeq: nat, t: Tables, ops: seq<Operation>, i: nat)
      requires i < |ops| && Reducers.ApplyOperations(registry, proposer, openedSeq, t, ops[..i]).Ok?
      ensures
        var before := Reducers.ApplyOperations(registry, proposer, openedSeq, t, ops[..i]).value;
        Reducers.ApplyOperations(registry, proposer, openedSeq, t, ops[..i + 1]) ==
          match Reducers.ApplyOperation(registry, proposer, openedSeq, before.tables, ops[i])
          case Err(failure) => Err(failure)
          case Ok(step) => Ok(Step(step.tables, before.events + step.events, before.touched + step.touched))
    {
      assert ops[..i + 1][..i] == ops[..i];
    }

    static lemma {:induction false} FailureStays(registry: Registry, proposer: Actor, openedSeq: nat, t: Tables,
        ops: seq<Operation>, n: nat)
      requires n <= |ops| && Reducers.ApplyOperations(registry, proposer, openedSeq, t, ops[..n]).Err?
      ensures Reducers.ApplyOperations(registry, proposer, openedSeq, t, ops) == Reducers.ApplyOperations(registry,
          proposer, openedSeq, t, ops[..n])
      decreases |ops|
    {
      if n < |ops| {
        assert ops[..|ops| - 1][..n] == ops[..n];
        FailureStays(registry, proposer, openedSeq, t, ops[..|ops| - 1], n);
      } else {
        assert ops[..n] == ops;
      }
    }

    method Rollback(to: Tables)
      modifies this`sources, this`claims, this`evidence, this`conflicts, this`decisions, this`questions, this`workItems
      ensures Db() == to
    {
      sources, claims, evidence, conflicts := to.sources, to.claims, to.evidence, to.conflicts;
      decisions, questions, workItems := to.decisions, to.questions, to.workItems;
    }

    /** Apply a checked proposal inside a transaction: on success the tables hold its effect and
        its ledger entry is built, on failure the tables are as before. */
    /** The transaction in terms of what its operations do. */
    static lemma TransactIs(env: Env, state: State, p: Proposal, applied: Result<Step, Failure>)
      requires applied
            == Reducers.ApplyOperations(env.registry, p.proposer, |state.ledger| + 1, state.tables, p.operations)
      ensures
        match applied
        case Err(failure) => Ledger.Transact(env, state, p) == Err(failure)
        case Ok(step) =>
          var made := MakeEntry(state.ledger, p, step.events, state.tables, step.tables);
          Ledger.Transact(env, state, p) ==
            if env.contract.entryValid(made.document) then Ok(Accepted(step.tables, made, Prediction.Ids(step.touched)))
            else Err(Invalid(LedgerEntrySchemaInvalid))
    {}

    method Transact(p: Proposal) returns (error: Option<Failure>, entry: Option<Entry>, conflictIds: set<Id>)
      requires FamiliesNamePredicate(env.registry) && R.Sound(env.registry, Db())
      modifies this`sources, this`claims, this`evidence, this`conflicts, this`decisions, this`questions, this`workItems,
               this`events, this`touched, this`currentProposer, this`currentOpenedSeq
      ensures match Ledger.Transact(env, old(Snapshot()), p)
              case Err(failure) => error == Some(failure) && Db() == old(Db())
              case Ok(accepted) =>
                  error.None? && Db() == accepted.tables && entry == Some(accepted.entry)
                  && conflictIds == accepted.conflictIds
    {
      var before := Db();
      entry, conflictIds := None, {};
      ghost var applied := Reducers.ApplyOperations(env.registry, p.proposer, |ledger| + 1, before, p.operations);
      TransactIs(env, Snapshot(), p, applied);
      error := ApplyOperations(p);
      if error.None? {
        conflictIds := set c | c in touched;
        entry := RecordEntry(p, before);
        if entry.None? {
          error := Some(Invalid(LedgerEntrySchemaInvalid));
        }
      }
      if error.Some? {
        Rollback(before);
      }
    }

    /** The ledger row of the applied operations, if it meets the contract. */
    method RecordEntry(p: Proposal, before: Tables) returns (entry: Option<Entry>)
      ensures
        var made := MakeEntry(ledger, p, events, before, Db());
        entry == if env.contract.entryValid(made.document) then Some(made) else None
    {
      var made := MakeEntry(ledger, p, events, before, Db());
      return if env.contract.entryValid(made.document) then Some(made) else None;
    }

    method EvaluateProposal(p: Proposal) returns (error: Option<Failure>, entry: Option<Entry>, conflictIds: set<Id>)
      requires FamiliesNamePredicate(env.registry) && R.Sound(env.registry, Db())
      modifies this`sources, this`claims, this`evidence, this`conflicts, this`decisions, this`questions, this`workItems,
               this`events, this`touched, this`currentProposer, this`currentOpenedSeq
      ensures match Evaluate(env, old(Snapshot()), p)
              case Err(failure) => error == Some(failure) && Db() == old(Db())
              case Ok(accepted) =>
                  error.None? && Db() == accepted.tables && entry == Some(accepted.entry)
                  && conflictIds == accepted.conflictIds
    {
      entry, conflictIds := None, {};
      error := CheckProposal(p);
      if error.None? {
        error, entry, conflictIds := Transact(p);
      }
    }

    method Commit(s: Submission) returns (receipt: Receipt)
      requires Valid()
      modifies this
      ensures Valid()
      ensures (Snapshot(), receipt) == Ledger.Commit(env, old(Snapshot()), s)
    {
      CommitKeepsGood(env, Snapshot(), s);
      receipt := CommitSubmission(s);
    }

    method CommitSubmission(s: Submission) returns (receipt: Receipt)
      requires FamiliesNamePredicate(env.registry) && Coherent(env.contract) && R.Sound(env.registry, Db())
      modifies this
      ensures (Snapshot(), receipt) == Ledger.Commit(env, old(Snapshot()), s)
    {
      ghost var before := Snapshot();
      var preflight := Preflight(s);
      if preflight.Some? {
        receipt := RejectSubmission(s, Invalid(preflight.value));
        return;
      }
      var prior := FindPrior(KeyOf(s));
      if prior.Some? {
        if receipts[prior.value].proposalHash != HashOf(s) {
          receipt := RejectSubmission(s, Invalid(IdempotencyKeyReuse));
        } else {
          receipt := receipts[prior.value];
        }
        return;
      }
      var error, entry, conflictIds := EvaluateProposal(s.proposal);
      if error.Some? {
        receipt := RejectSubmission(s, error.value);
        return;
      }
      CommitAccepts(env, before, s, Accepted(Db(), entry.value, conflictIds));
      receipt := AppendEntry(s, entry.value, conflictIds);
    }

    static lemma CommitAccepts(env: Env, state: State, s: Submission, accepted: Accepted)
      requires Preflight(s).None? && FirstByKey(state.receipts, KeyOf(s)).None?
          && Evaluate(env, state, s.proposal) == Ok(accepted)
      ensures Ledger.Commit(env, state, s) == Accept(env, state, s, accepted)
      ensures env.contract.proposalValid(s.proposal)
    {}

    /** The ledger row and its receipt are written in the same transaction. */
    method AppendEntry(s: Submission, entry: Entry, conflictIds: set<Id>) returns (receipt: Receipt)
      requires Coherent(env.contract) && s.Encoded? && env.contract.proposalValid(s.proposal)
      modifies this`ledger, this`receipts
      ensures (Snapshot(), receipt) == Accept(env, old(Snapshot()), s, Accepted(Db(), entry, conflictIds))
    {
      var outcome := if conflictIds == {} then Committed else FactConflict;
      receipt := InsertReceipt(s, outcome, [], Some(entry), entry.postRoot, conflictIds);
      ledger := ledger + [entry];
    }

    // ------------------------------------------------------------------- replay

    static lemma FamiliesAreOne(registry: Registry, claims: map<Id, ClaimRow>, members: set<Id>, family: FamilyKey)
      requires forall m :: m in members ==> m in claims && Known(registry, claims[m].proposition)
      ensures (set m | m in members :: OwnFamily(registry, claims[m].proposition)) == {family} <==>
          members != {} && R.OneFamily(registry, claims, members, family)
    {
      var families := set m | m in members :: OwnFamily(registry, claims[m].proposition);
      assert forall m :: m in members ==> OwnFamily(registry, claims[m].proposition) in families;
    }

    method ReplayOpenConflict(conflict: Conflict) returns (error: Option<Failure>)
      modifies this`conflicts
      ensures match R.ReplayOpenConflict(env.registry, old(Db()), conflict)
              case Err(failure) => error == Some(failure)
              case Ok(after) => error.None? && Db() == after
    {
      if conflict.memberDigest != MemberDigest(conflict.members) {
        return Some(Invalid(ConflictMemberDigestMismatch));
      }
      if exists m :: m in conflict.members && m !in claims {
        return Some(Invalid(ConflictMemberNotFound));
      }
      if exists m :: m in conflict.members && !Known(env.registry, claims[m].proposition) {
        return Some(Invalid(UnknownPredicate));
      }
      var families := set m | m in conflict.members :: OwnFamily(env.registry, claims[m].proposition);
      FamiliesAreOne(env.registry, claims, conflict.members, conflict.familyKey);
      if families != {conflict.familyKey} {
        return Some(Invalid(ConflictFamilyKeyMismatch));
      }
      var c := conflict.conflictId;
      var version := if c in conflicts then conflicts[c].version + 1 else 1;
      conflicts := conflicts[c := R.RowOf(conflict, version)];
      return None;
    }

    method ApplyReplayEvent(e: Event) returns (error: Option<Failure>)
      modifies this`sources, this`claims, this`evidence, this`conflicts, this`decisions, this`questions,
          this`workItems, this`events
      ensures match R.ApplyEvent(env.registry, old(Db()), e)
              case Err(failure) => error == Some(failure)
              case Ok(after) => error.None? && Db() == after
    {
      if Continuity.IsContinuityEvent(e) {
        events := [];
        ghost var r := Continuity.Apply(Db(), Continuity.OperationOf(e));
        error := ApplyContinuityOperation(Continuity.OperationOf(e));
        assert r.Ok? ==> events == [r.value.event];
        if error.None? && events != [e] {
          error := Some(Invalid(ReplayTransitionMismatch));
        }
        return;
      }
      match e
      case SourceRevisionRegistered(source) => error := RegisterSourceRevision(source);
      case ClaimAsserted(claim, links) => error := AdmitClaim(claim, links);
      case EvidenceAttached(link) => error := AttachEvidence(link);
      case ClaimSuperseded(target, replacement, _) =>
        if target !in claims || claims[target].status != Active {
          return Some(Invalid(ReplayPreconditionFailed));
        }
        claims := claims[target := SupersededRow(claims[target], replacement)];
        error := None;
      case ClaimRetracted(target, _, _, _) =>
        if target !in claims || claims[target].status != Active {
          return Some(Invalid(ReplayPreconditionFailed));
        }
        claims := claims[target := RetractedRow(claims[target])];
        error := None;
      case ConflictOpened(conflict) => error := ReplayOpenConflict(conflict);
      case ConflictResolved(c, resolution) =>
        if c !in conflicts || conflicts[c].status != Open {
          return Some(Invalid(ReplayPreconditionFailed));
        }
        conflicts := conflicts[c := ResolvedRow(conflicts[c], resolution)];
        error := None;
    }
  }
}
