/** Rebuilding the tables from recorded events: a second implementation of the kernel's
    state change, and the proof that it agrees with the first on everything recorded. */
module Replay {
  import opened Wrappers
  import opened Domain
  import opened Rules
  import opened Reducers
  import Continuity

  // ------------------------------------------------------------ one event

  function RowOf(conflict: Conflict, version: nat): ConflictRow {
    ConflictRow(conflict.familyKey, conflict.kind, conflict.memberDigest, conflict.members, conflict.status,
      conflict.episode, version, conflict.resolution, conflict.openedSeq)
  }

  /** Replay keys every member with the member's own predicate. */
  ghost predicate OneFamily(registry: Registry, claims: map<Id, ClaimRow>, members: set<Id>, family: FamilyKey) {
    forall m :: m in members ==>
      m in claims && Known(registry, claims[m].proposition) && OwnFamily(registry, claims[m].proposition) == family
  }

  ghost function ReplayOpenConflict(registry: Registry, t: Tables, conflict: Conflict): Result<Tables, Failure> {
    if conflict.memberDigest != MemberDigest(conflict.members) then Err(Invalid(ConflictMemberDigestMismatch))
    else if exists m :: m in conflict.members && m !in t.claims then Err(Invalid(ConflictMemberNotFound))
    else if exists m ::
        m in conflict.members && !Known(registry, t.claims[m].proposition) then Err(Invalid(UnknownPredicate))
    else if conflict.members == {} || !OneFamily(registry, t.claims, conflict.members, conflict.familyKey)
    then Err(Invalid(ConflictFamilyKeyMismatch))
    else
      var c := conflict.conflictId;
      var version := if c in t.conflicts then t.conflicts[c].version + 1 else 1;
      Ok(t.(conflicts := t.conflicts[c := RowOf(conflict, version)]))
  }

  ghost function ApplyEvent(registry: Registry, t: Tables, e: Event): Result<Tables, Failure> {
    if Continuity.IsContinuityEvent(e) then Continuity.ApplyEvent(t, e)
    else
      match e
      case SourceRevisionRegistered(source) => PutSource(t, source)
      case ClaimAsserted(claim, evidence) => AdmitClaim(registry, t, claim, evidence)
      case EvidenceAttached(link) => AttachLink(registry, t, link)
      case ClaimSuperseded(target, replacement, _) =>
        if target !in t.claims || t.claims[target].status != Active then Err(Invalid(ReplayPreconditionFailed))
        else Ok(t.(claims := t.claims[target := SupersededRow(t.claims[target], replacement)]))
      case ClaimRetracted(target, _, _, _) =>
        if target !in t.claims || t.claims[target].status != Active then Err(Invalid(ReplayPreconditionFailed))
        else Ok(t.(claims := t.claims[target := RetractedRow(t.claims[target])]))
      case ConflictOpened(conflict) => ReplayOpenConflict(registry, t, conflict)
      case ConflictResolved(c, resolution) =>
        if c !in t.conflicts || t.conflicts[c].status != Open then Err(Invalid(ReplayPreconditionFailed))
        else Ok(t.(conflicts := t.conflicts[c := ResolvedRow(t.conflicts[c], resolution)]))
  }

  ghost function Replay(registry: Registry, t: Tables, events: seq<Event>): Result<Tables, Failure>
    decreases |events|
  {
    if events == [] then Ok(t)
    else
      match Replay(registry, t, events[..|events| - 1])
      case Err(failure) => Err(failure)
      case Ok(before) => ApplyEvent(registry, before, events[|events| - 1])
  }

  lemma {:induction false} ReplayAppend(registry: Registry, t: Tables, first: seq<Event>, second: seq<Event>)
    requires Replay(registry, t, first).Ok?
    ensures Replay(registry, t, first + second) == Replay(registry, Replay(registry, t, first).value, second)
    decreases |second|
  {
    if second == [] {
      assert first + second == first;
    } else {
      var n := |second| - 1;
      ReplayAppend(registry, t, first, second[..n]);
      LastAppended(first, second);
      ReplayLast(registry, t, first + second);
    }
  }

  lemma LastAppended(first: seq<Event>, second: seq<Event>)
    requires second != []
    ensures
      var all := first + second;
      all[..|all| - 1] == first + second[..|second| - 1] && all[|all| - 1] == second[|second| - 1]
  {
  }

  lemma ReplayLast(registry: Registry, t: Tables, events: seq<Event>)
    requires events != []
    ensures Replay(registry, t, events) ==
              match Replay(registry, t, events[..|events| - 1])
              case Err(failure) => Err(failure)
              case Ok(before) => ApplyEvent(registry, before, events[|events| - 1])
  {
  }

  lemma ReplayOne(registry: Registry, t: Tables, e: Event)
    ensures Replay(registry, t, [e]) == ApplyEvent(registry, t, e)
  {
    assert [e][..0] == [];
  }

  // ------------------------------------------------- what the tables always satisfy

  ghost predicate ClaimsSound(registry: Registry, claims: map<Id, ClaimRow>) {
    forall c :: c in claims ==>
      && Known(registry, claims[c].proposition)
      && claims[c].document.claimId == c
      && claims[c].document.proposition == claims[c].proposition
      && claims[c].propositionHash == PropositionHash(claims[c].proposition)
      && (claims[c].supersededBy.Some? <==> claims[c].status == Superseded)
  }

  ghost predicate RowSound(registry: Registry, claims: map<Id, ClaimRow>, c: Id, row: ConflictRow) {
    && c.ConflictOf? && c.firstMembers <= claims.Keys
    && row.members != {}
    && OneFamily(registry, claims, row.members, row.familyKey)
    && row.memberDigest == MemberDigest(row.members)
    && (row.status == Open <==> row.resolution.None?)
  }

  /** At most one conflict row per family and kind. */
  ghost predicate OneRowPerKind(conflicts: map<Id, ConflictRow>) {
    forall c, d ::
        c in conflicts && d in conflicts && Matches(conflicts[d], conflicts[c].familyKey, conflicts[c].kind) ==> c == d
  }

  ghost predicate ConflictsSound(registry: Registry, t: Tables) {
    && (forall c :: c in t.conflicts ==> RowSound(registry, t.claims, c, t.conflicts[c]))
    && OneRowPerKind(t.conflicts)
  }

  ghost predicate Sound(registry: Registry, t: Tables) {
    ClaimsSound(registry, t.claims) && ConflictsSound(registry, t)
  }

  /** Claims are never removed and never change their proposition. */
  ghost predicate Extends(before: map<Id, ClaimRow>, after: map<Id, ClaimRow>) {
    forall c :: c in before ==> c in after && after[c].proposition == before[c].proposition
  }

  lemma ConflictsStaySound(registry: Registry, before: Tables, after: Tables)
    requires ConflictsSound(registry, before)
    requires Extends(before.claims, after.claims) && after.conflicts == before.conflicts
    ensures ConflictsSound(registry, after)
  {
    forall c | c in after.conflicts
      ensures RowSound(registry, after.claims, c, after.conflicts[c])
    {
      assert RowSound(registry, before.claims, c, before.conflicts[c]);
    }
  }

  // ----------------------------------------------------------- opening conflicts

  lemma RivalsShareFamily(registry: Registry, claims: map<Id, ClaimRow>, incoming: Claim, ignored: set<Id>,
      kind: ConflictKind)
    requires FamiliesNamePredicate(registry) && ClaimsSound(registry, claims) && Known(registry, incoming.proposition)
    ensures OneFamily(registry, claims,
              Rivals(claims, incoming, registry.predicates[incoming.proposition.predicateKey], ignored, kind),
              OwnFamily(registry, incoming.proposition))
  {
    var def := registry.predicates[incoming.proposition.predicateKey];
    forall c | c in Rivals(claims, incoming, def, ignored, kind)
      ensures OwnFamily(registry, claims[c].proposition) == OwnFamily(registry, incoming.proposition)
    {
      FamilyDeterminesPredicate(registry, incoming.proposition, claims[c].proposition);
    }
  }

  /** The one row of its family and kind, open, with these members and all it had while open. */
  ghost predicate OpenedWell(registry: Registry, t: Tables, family: FamilyKey, kind: ConflictKind, members: set<Id>,
      c: Id, row: ConflictRow) {
    && RowSound(registry, t.claims, c, row) && row.status == Open && Matches(row, family, kind)
    && members <= row.members
    && (forall d :: d in t.conflicts && Matches(t.conflicts[d], family, kind) ==> c == d)
    && (c in t.conflicts ==> Matches(t.conflicts[c], family, kind) && row.version == t.conflicts[c].version + 1)
    && (c in t.conflicts && t.conflicts[c].status == Open ==> t.conflicts[c].members <= row.members)
    && (c !in t.conflicts ==> row.version == 1 && c == ConflictOf(members))
  }

  lemma MergedOpensWell(registry: Registry, t: Tables, family: FamilyKey, kind: ConflictKind, members: set<Id>, c: Id)
    requires Sound(registry, t) && OneFamily(registry, t.claims, members, family)
    requires Holds(t.conflicts, c, family, kind, Open)
    ensures OpenedWell(registry, t, family, kind, members, c, MergedRow(t.conflicts[c], members))
  {
    assert RowSound(registry, t.claims, c, t.conflicts[c]);
  }

  lemma ReopenedOpensWell(registry: Registry, t: Tables, family: FamilyKey, kind: ConflictKind, members: set<Id>,
      c: Id, openedSeq: nat)
    requires Sound(registry, t) && members != {} && OneFamily(registry, t.claims, members, family)
    requires Holds(t.conflicts, c, family, kind, Resolved)
    ensures OpenedWell(registry, t, family, kind, members, c, ReopenedRow(t.conflicts[c], members, openedSeq))
  {
    assert RowSound(registry, t.claims, c, t.conflicts[c]);
  }

  lemma FirstOpensWell(registry: Registry, t: Tables, family: FamilyKey, kind: ConflictKind, members: set<Id>,
      openedSeq: nat)
    requires members != {} && OneFamily(registry, t.claims, members, family) && ConflictOf(members) !in t.conflicts
    requires forall d :: !Holds(t.conflicts, d, family, kind, Open) && !Holds(t.conflicts, d, family, kind, Resolved)
    ensures OpenedWell(registry, t, family, kind, members, ConflictOf(members),
        FirstRow(family, kind, members, openedSeq))
  {
    forall d | d in t.conflicts
      ensures !Matches(t.conflicts[d], family, kind)
    {
      assert !Holds(t.conflicts, d, family, kind, Open) && !Holds(t.conflicts, d, family, kind, Resolved);
    }
  }

  lemma OpenRowSound(registry: Registry, t: Tables, family: FamilyKey, kind: ConflictKind, members: set<Id>,
      openedSeq: nat)
    requires Sound(registry, t)
    requires members != {} && OneFamily(registry, t.claims, members, family) && ConflictOf(members) !in t.conflicts
    ensures OpenRow(t.conflicts, family, kind, members, openedSeq).Ok?
    ensures
      var (c, row) := OpenRow(t.conflicts, family, kind, members, openedSeq).value;
      OpenedWell(registry, t, family, kind, members, c, row)
  {
    match Find(t.conflicts, family, kind, Open)
    case Some(c) => MergedOpensWell(registry, t, family, kind, members, c);
    case None =>
      match Find(t.conflicts, family, kind, Resolved)
      case Some(c) => ReopenedOpensWell(registry, t, family, kind, members, c, openedSeq);
      case None => FirstOpensWell(registry, t, family, kind, members, openedSeq);
  }

  lemma InsertRowSound(registry: Registry, t: Tables, c: Id, row: ConflictRow)
    requires Sound(registry, t) && RowSound(registry, t.claims, c, row)
    requires forall d :: d in t.conflicts && Matches(t.conflicts[d], row.familyKey, row.kind) ==> c == d
    ensures Sound(registry, t.(conflicts := t.conflicts[c := row]))
  {
    var after := t.conflicts[c := row];
    forall d, e | d in after && e in after && Matches(after[e], after[d].familyKey, after[d].kind)
      ensures d == e
    {
      if d != c && e != c {
        assert Matches(t.conflicts[e], t.conflicts[d].familyKey, t.conflicts[d].kind);
      }
    }
  }

  lemma RecordedRowReplays(registry: Registry, t: Tables, c: Id, row: ConflictRow)
    requires RowSound(registry, t.claims, c, row)
    requires row.version == if c in t.conflicts then t.conflicts[c].version + 1 else 1
    ensures ApplyEvent(registry, t, ConflictOpened(Document(c, row))) == Ok(t.(conflicts := t.conflicts[c := row]))
  {}

  ghost function MembersOf(registry: Registry, t: Tables, incoming: Claim, ignored: set<Id>,
      kind: ConflictKind): set<Id>
    requires Known(registry, incoming.proposition)
  {
    Rivals(t.claims, incoming, registry.predicates[incoming.proposition.predicateKey], ignored,
        kind) + {incoming.claimId}
  }

  /** Writing the row keeps the tables sound, and its event replays to them. */
  lemma OpenedRowReplays(registry: Registry, t: Tables, family: FamilyKey, kind: ConflictKind, members: set<Id>,
      c: Id, row: ConflictRow)
    requires Sound(registry, t) && OpenedWell(registry, t, family, kind, members, c, row)
    ensures
      var after := t.(conflicts := t.conflicts[c := row]);
      Sound(registry, after) && Replay(registry, t, [ConflictOpened(Document(c, row))]) == Ok(after)
  {
    InsertRowSound(registry, t, c, row);
    RecordedRowReplays(registry, t, c, row);
    ReplayOne(registry, t, ConflictOpened(Document(c, row)));
  }

  lemma OpenKindSound(registry: Registry, t: Tables, incoming: Claim, ignored: set<Id>, kind: ConflictKind,
      openedSeq: nat)
    requires FamiliesNamePredicate(registry) && Sound(registry, t)
    requires incoming.claimId in t.claims && t.claims[incoming.claimId].proposition == incoming.proposition
    requires ConflictOf(MembersOf(registry, t, incoming, ignored, kind)) !in t.conflicts
    ensures
      var r := OpenKind(t, incoming, registry.predicates[incoming.proposition.predicateKey], ignored, kind, openedSeq);
      && r.Ok? && Sound(registry, r.value.tables)
      && r.value.tables == t.(conflicts := r.value.tables.conflicts)
      && Replay(registry, t, r.value.events) == Ok(r.value.tables)
      && (forall c ::
          c in r.value.tables.conflicts ==>
          c in t.conflicts || (c == ConflictOf(MembersOf(registry, t, incoming, ignored, kind))
          && r.value.events != []))
  {
    var def := registry.predicates[incoming.proposition.predicateKey];
    var rivals := Rivals(t.claims, incoming, def, ignored, kind);
    if rivals != {} {
      var family := OwnFamily(registry, incoming.proposition);
      var members := rivals + {incoming.claimId};
      RivalsShareFamily(registry, t.claims, incoming, ignored, kind);
      OpenRowSound(registry, t, family, kind, members, openedSeq);
      var (c, row) := OpenRow(t.conflicts, family, kind, members, openedSeq).value;
      OpenedRowReplays(registry, t, family, kind, members, c, row);
    }
  }

  /** The row written for new members is of one family exactly when they are. */
  lemma OpenedRowFamily(registry: Registry, t: Tables, family: FamilyKey, kind: ConflictKind, members: set<Id>,
      openedSeq: nat)
    requires ConflictsSound(registry, t) && members <= t.claims.Keys && members != {}
    requires OpenRow(t.conflicts, family, kind, members, openedSeq).Ok?
    ensures
      var (c, row) := OpenRow(t.conflicts, family, kind, members, openedSeq).value;
      && row.familyKey == family && row.memberDigest == MemberDigest(row.members) && row.members <= t.claims.Keys
          && row.members != {}
      && row.version == (if c in t.conflicts then t.conflicts[c].version + 1 else 1)
      && (OneFamily(registry, t.claims, row.members, family) <==> OneFamily(registry, t.claims, members, family))
  {
    var (c, row) := OpenRow(t.conflicts, family, kind, members, openedSeq).value;
    assert members <= row.members;
    if c in t.conflicts {
      assert RowSound(registry, t.claims, c, t.conflicts[c]);
      assert t.conflicts[c].familyKey == family;
    }
  }

  /** Why families must name the predicate: the opening that the kernel records replays exactly when
      every rival's own predicate is known and puts it in the incoming claim's family. */
  lemma RecordedOpeningReplays(registry: Registry, t: Tables, incoming: Claim, ignored: set<Id>, kind: ConflictKind,
      openedSeq: nat)
    requires Known(registry, incoming.proposition) && Sound(registry, t)
    requires incoming.claimId in t.claims && t.claims[incoming.claimId].proposition == incoming.proposition
    requires OpenKind(t, incoming, registry.predicates[incoming.proposition.predicateKey], ignored, kind, openedSeq).Ok?
    ensures
      var step := OpenKind(t, incoming, registry.predicates[incoming.proposition.predicateKey], ignored, kind,
          openedSeq).value;
      var rivals := Rivals(t.claims, incoming, registry.predicates[incoming.proposition.predicateKey], ignored, kind);
      Replay(registry, t, step.events).Ok? <==>
          OneFamily(registry, t.claims, rivals, OwnFamily(registry, incoming.proposition))
  {
    var def := registry.predicates[incoming.proposition.predicateKey];
    var rivals := Rivals(t.claims, incoming, def, ignored, kind);
    if rivals != {} {
      var family, members := OwnFamily(registry, incoming.proposition), rivals + {incoming.claimId};
      var (c, row) := OpenRow(t.conflicts, family, kind, members, openedSeq).value;
      OpenedRowFamily(registry, t, family, kind, members, openedSeq);
      ReplayOne(registry, t, ConflictOpened(Document(c, row)));
    }
  }

  /** Once replay has failed, the events that follow change nothing. */
  lemma {:induction false} FailedReplayStays(registry: Registry, t: Tables, events: seq<Event>, n: nat)
    requires n <= |events| && Replay(registry, t, events[..n]).Err?
    ensures Replay(registry, t, events) == Replay(registry, t, events[..n])
    decreases |events|
  {
    if n < |events| {
      assert events[..|events| - 1][..n] == events[..n];
      FailedReplayStays(registry, t, events[..|events| - 1], n);
    } else {
      assert events[..n] == events;
    }
  }

  predicate SameOperation(a: Event, b: Event) {
    Continuity.IsContinuityEvent(a) && Continuity.IsContinuityEvent(b)
        && Continuity.OperationOf(a) == Continuity.OperationOf(b)
  }

  /** The step that regenerates an event refuses any other event of the same operation. */
  lemma AlteredEventIsRefused(registry: Registry, t: Tables, e: Event, altered: Event)
    requires ApplyEvent(registry, t, e).Ok? && SameOperation(e, altered) && altered != e
    ensures ApplyEvent(registry, t, altered) == Err(Invalid(ReplayTransitionMismatch))
  {}

  lemma PrefixReplays(registry: Registry, t: Tables, events: seq<Event>, i: nat)
    requires Replay(registry, t, events).Ok? && i < |events|
    ensures Replay(registry, t, events[..i]).Ok?
    ensures ApplyEvent(registry, Replay(registry, t, events[..i]).value, events[i]).Ok?
  {
    if Replay(registry, t, events[..i + 1]).Err? {
      FailedReplayStays(registry, t, events, i + 1);
    }
    assert events[..i + 1][..i] == events[..i];
  }

  lemma RefusedStep(registry: Registry, t: Tables, events: seq<Event>, e: Event, failure: Failure)
    requires Replay(registry, t, events).Ok?
    requires ApplyEvent(registry, Replay(registry, t, events).value, e) == Err(failure)
    ensures Replay(registry, t, events + [e]) == Err(failure)
  {
    assert (events + [e])[..|events|] == events;
  }

  /** Every continuity event of a history that replays is the one its operation regenerates: with any
      recorded version or status altered, the history no longer replays. */
  lemma AlteredVersionIsRefused(registry: Registry, t: Tables, events: seq<Event>, i: nat, altered: Event)
    requires Replay(registry, t, events).Ok? && i < |events|
    requires SameOperation(events[i], altered) && altered != events[i]
    ensures Replay(registry, t, events[i := altered]) == Err(Invalid(ReplayTransitionMismatch))
  {
    PrefixReplays(registry, t, events, i);
    AlteredEventIsRefused(registry, Replay(registry, t, events[..i]).value, events[i], altered);
    RefusedStep(registry, t, events[..i], altered, Invalid(ReplayTransitionMismatch));
    assert events[i := altered][..i + 1] == events[..i] + [altered];
    FailedReplayStays(registry, t, events[i := altered], i + 1);
  }
}
