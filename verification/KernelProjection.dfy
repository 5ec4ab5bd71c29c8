/** The projections of a kernel: whatever was committed, both can be built, and they agree. */
module KernelProjection {
  import opened Wrappers
  import opened Domain
  import opened Rules
  import opened Ledger
  import opened Invariant
  import opened Json
  import H = ProjectionHistory
  import P = Projections
  import Continuity
  import R = Replay

  // ------------------------------------------------------------- continuity rows

  ghost predicate DecisionSound(id: Id, row: DecisionRow) {
    row.document.decisionId == id && !row.status.DecisionOther?
  }

  ghost predicate QuestionSound(id: Id, row: QuestionRow) {
    row.document.questionId == id && !row.status.QuestionOther?
  }

  ghost predicate WorkItemSound(id: Id, row: WorkItemRow) {
    row.document.workItemId == id && !row.status.WorkOther?
  }

  /** Documents carry the identifier of their row, and statuses are known ones. */
  ghost predicate ContinuitySound(t: Tables) {
    && (forall d :: d in t.decisions ==> DecisionSound(d, t.decisions[d]))
    && (forall q :: q in t.questions ==> QuestionSound(q, t.questions[q]))
    && (forall w :: w in t.workItems ==> WorkItemSound(w, t.workItems[w]))
  }

  lemma ContinuityStaysSound(t: Tables, op: Operation)
    requires Continuity.IsContinuityOperation(op) && ContinuitySound(t) && Continuity.Apply(t, op).Ok?
    ensures ContinuitySound(Continuity.Apply(t, op).value.tables)
  {}

  lemma EventKeepsContinuitySound(registry: Registry, t: Tables, e: Event)
    requires ContinuitySound(t) && R.ApplyEvent(registry, t, e).Ok?
    ensures ContinuitySound(R.ApplyEvent(registry, t, e).value)
  {
    if Continuity.IsContinuityEvent(e) {
      ContinuityStaysSound(t, Continuity.OperationOf(e));
    } else {
      var after := R.ApplyEvent(registry, t, e).value;
      assert after.decisions == t.decisions && after.questions == t.questions && after.workItems == t.workItems;
    }
  }

  lemma {:induction false} ReplayKeepsContinuitySound(registry: Registry, events: seq<Event>)
    requires R.Replay(registry, EMPTY_TABLES, events).Ok?
    ensures ContinuitySound(R.Replay(registry, EMPTY_TABLES, events).value)
    decreases |events|
  {
    if events != [] {
      var n := |events| - 1;
      ReplayKeepsContinuitySound(registry, events[..n]);
      EventKeepsContinuitySound(registry, R.Replay(registry, EMPTY_TABLES, events[..n]).value, events[n]);
    }
  }

  // ----------------------------------------------------------------- rows as written

  /** How the kernel writes its records down. */
  datatype Wire = Wire(
    idText: Id -> string, rootText: StateRoot -> string,
    sourceRow: (Id, SourceRow) -> P.SourceRow, claimRow: (Id, ClaimRow) -> P.ClaimRow,
        evidenceRow: (Id, EvidenceRow) -> P.EvidenceRow,
    conflictRow: (Id, ConflictRow) -> P.ConflictRow, decisionRow: (Id, DecisionRow) -> P.ContinuityRow,
    questionRow: (Id, QuestionRow) -> P.ContinuityRow, workItemRow: (Id, WorkItemRow) -> P.ContinuityRow,
    entryHash: EntryHash -> string, registryHash: RegistryHash -> string, proposalMembers: Proposal -> seq<Member>,
    eventsJson: seq<Event> -> Json, documentJson: EntryDocument -> Json, entryColumns: Entry -> Json)

  function DecisionStatusText(status: DecisionStatus): string {
    match status
    case DecisionActive => "ACTIVE"
    case DecisionSuperseded => "SUPERSEDED"
    case DecisionReversed => "REVERSED"
    case DecisionOther(name) => name
  }

  function QuestionStatusText(status: QuestionStatus): string {
    match status
    case QuestionOpen => "OPEN"
    case QuestionAnswered => "ANSWERED"
    case QuestionDropped => "DROPPED"
    case QuestionOther(name) => name
  }

  function WorkStatusText(status: WorkStatus): string {
    match status
    case Todo => "TODO"
    case Doing => "DOING"
    case Blocked => "BLOCKED"
    case Done => "DONE"
    case Dropped => "DROPPED"
    case WorkOther(name) => name
  }

  /** A document is an object that names its record. */
  predicate Names(document: Json, key: string, name: string) {
    Has(document, key) && Get(document, key) == Json.Text(name)
  }

  /** The versions of a proposal: texts under keys none of which names a record. */
  function VersionsJson(w: Wire, v: Versions): Json {
    Object(
      [Member("conflict_rules", Json.Text(v.conflictRules)), Member("guard_dsl", Json.Text(v.guardDsl)),
       Member("predicate_registry", Json.Text(v.predicateRegistry))]
      + (if v.registryHash.None? then []
          else [Member("predicate_registry_hash", Json.Text(w.registryHash(v.registryHash.value)))])
      + [Member("projection", Json.Text(v.projection)), Member("schema", Json.Text(v.schema))])
  }

  function ProposalJson(w: Wire, p: Proposal): Json {
    Object(w.proposalMembers(p) + [Member("versions", VersionsJson(w, p.versions))])
  }

  function ClaimStatusText(status: ClaimStatus): string {
    match status
    case Active => "ACTIVE"
    case Superseded => "SUPERSEDED"
    case Retracted => "RETRACTED"
  }

  /** Rows carry the identifiers they are stored with. */
  ghost predicate Identified(w: Wire) {
    && (forall id, row :: w.sourceRow(id, row).id == w.idText(id))
    && (forall id, row :: w.claimRow(id, row).id == w.idText(id))
    && (forall id, row :: w.evidenceRow(id, row).id == w.idText(id)
          && w.evidenceRow(id, row).claimId == w.idText(row.claimId)
          && w.evidenceRow(id, row).sourceId == w.idText(row.sourceRevisionId))
    && (forall id, row :: w.conflictRow(id, row).id == w.idText(id))
    && (forall id, row :: w.decisionRow(id, row).id == w.idText(id))
    && (forall id, row :: w.questionRow(id, row).id == w.idText(id))
    && (forall id, row :: w.workItemRow(id, row).id == w.idText(id))
  }

  ghost predicate AreMembers(members: seq<string>, ids: set<Id>, idText: Id -> string) {
    forall m :: m in members <==> exists c :: c in ids && m == idText(c)
  }

  /** Identifiers have texts of their own, rows and documents carry them, statuses are spelled out,
      and nothing but a proposal has a member called "versions". */
  ghost predicate Faithful(w: Wire) {
    && (forall a, b :: w.idText(a) == w.idText(b) ==> a == b) && Identified(w)
    && (forall id, row :: w.claimRow(id, row).documentId == w.idText(row.document.claimId)
          && w.claimRow(id, row).status == ClaimStatusText(row.status))
    && (forall id, row :: w.conflictRow(id, row).status == (if row.status == Open then "OPEN" else "RESOLVED")
          && AreMembers(w.conflictRow(id, row).members, row.members, w.idText))
    && (forall id, row :: w.decisionRow(id, row).status == Some(DecisionStatusText(row.status))
          && Names(w.decisionRow(id, row).document, "decision_id", w.idText(row.document.decisionId)))
    && (forall id, row :: w.questionRow(id, row).status == Some(QuestionStatusText(row.status))
          && Names(w.questionRow(id, row).document, "question_id", w.idText(row.document.questionId)))
    && (forall id, row :: w.workItemRow(id, row).status == Some(WorkStatusText(row.status))
          && Names(w.workItemRow(id, row).document, "work_item_id", w.idText(row.document.workItemId)))
    && (forall p :: H.AllUnversioned(w.proposalMembers(p)))
    && (forall events :: H.Unversioned(w.eventsJson(events)))
  }

  /** The order in which each table is read: every key once. */
  datatype Order = Order(
    sources: seq<Id>, claims: seq<Id>, evidence: seq<Id>, conflicts: seq<Id>, decisions: seq<Id>, questions: seq<Id>,
        workItems: seq<Id>)

  ghost predicate Lists(order: seq<Id>, keys: set<Id>) {
    && (forall id :: id in order <==> id in keys)
    && (forall i, j :: 0 <= i < j < |order| ==> order[i] != order[j])
  }

  ghost predicate ListsTables(order: Order, t: Tables) {
    && Lists(order.sources, t.sources.Keys) && Lists(order.claims, t.claims.Keys)
        && Lists(order.evidence, t.evidence.Keys)
    && Lists(order.conflicts, t.conflicts.Keys) && Lists(order.decisions, t.decisions.Keys)
    && Lists(order.questions, t.questions.Keys) && Lists(order.workItems, t.workItems.Keys)
  }

  function Rows<A, B>(order: seq<Id>, table: map<Id, A>, row: (Id, A) -> B): (rows: seq<B>)
    requires forall id :: id in order ==> id in table
    ensures |rows| == |order| && forall i :: 0 <= i < |order| ==> rows[i] == row(order[i], table[order[i]])
  {
    seq(|order|, i requires 0 <= i < |order| => row(order[i], table[order[i]]))
  }

  function LedgerRowOf(w: Wire, e: Entry): H.LedgerRow {
    H.LedgerRow(e.seq_, w.entryHash(e.entryHash), ProposalJson(w, e.proposal), w.eventsJson(e.events),
      Some(w.documentJson(e.document)), w.entryColumns(e))
  }

  function LedgerRows(w: Wire, ledger: seq<Entry>): seq<H.LedgerRow> {
    seq(|ledger|, i requires 0 <= i < |ledger| => LedgerRowOf(w, ledger[i]))
  }

  ghost function StoreOf(w: Wire, order: Order, state: State): P.Store
    requires ListsTables(order, state.tables)
  {
    var t := state.tables;
    P.Store(w.rootText(StateRoot(t)),
      Rows(order.sources, t.sources, w.sourceRow), Rows(order.claims, t.claims, w.claimRow),
      Rows(order.evidence, t.evidence, w.evidenceRow), Rows(order.conflicts, t.conflicts, w.conflictRow),
      Rows(order.decisions, t.decisions, w.decisionRow), Rows(order.questions, t.questions, w.questionRow),
      Rows(order.workItems, t.workItems, w.workItemRow), LedgerRows(w, state.ledger))
  }

  // ------------------------------------------------------------------- what they satisfy

  lemma NamedDocuments(rows: seq<P.ContinuityRow>, order: seq<Id>, idText: Id -> string, key: string)
    requires |rows| == |order| && (forall a, b :: idText(a) == idText(b) ==> a == b)
    requires forall i, j :: 0 <= i < j < |order| ==> order[i] != order[j]
    requires forall i :: 0 <= i < |rows| ==> Names(rows[i].document, key, idText(order[i]))
    ensures P.DistinctDocuments(rows)
  {
    forall i, j | 0 <= i < j < |rows|
      ensures rows[i].document != rows[j].document
    {
      assert idText(order[i]) != idText(order[j]);
      assert Names(rows[i].document, key, idText(order[i])) && Names(rows[j].document, key, idText(order[j]));
    }
  }

  lemma VersionsNameNothing(w: Wire, v: Versions)
    ensures H.TreeIds(VersionsJson(w, v)) == {}
  {
    var members := VersionsJson(w, v).members;
    TextsNameNothing(members, |members|);
    assert members[..|members|] == members;
  }

  lemma {:induction false} TextsNameNothing(members: seq<Member>, n: nat)
    requires n <= |members| && forall i :: 0 <= i < |members| ==> members[i].value.Text? && !H.IsIdKey(members[i].key)
    ensures H.MemberTreeIds(members[..n]) == {}
  {
    if n > 0 {
      TextsNameNothing(members, n - 1);
      assert members[..n][..n - 1] == members[..n - 1];
    }
  }

  /** The kernel cannot write a row that mentions a record only under "versions". */
  lemma NothingUnderVersions(w: Wire, e: Entry)
    requires Faithful(w)
    ensures H.RowVersionIds(LedgerRowOf(w, e)) == {}
  {
    var front, last := w.proposalMembers(e.proposal), Member("versions", VersionsJson(w, e.proposal.versions));
    VersionsNameNothing(w, e.proposal.versions);
    H.NoMemberHasVersions(front, |front|);
    H.NothingUnderAbsentVersions(w.eventsJson(e.events));
    assert front[..|front|] == front;
    assert (front + [last])[..|front + [last]| - 1] == front && (front + [last])[|front + [last]| - 1] == last;
    assert H.MemberVersionIds(front + [last]) == H.MemberVersionIds(front) + H.TreeIds(last.value);
  }

  /** What projections need of a state. */
  ghost predicate Projectable(registry: Registry, state: State) {
    && R.Sound(registry, state.tables) && ContinuitySound(state.tables)
    && forall i :: 0 <= i < |state.ledger| ==> state.ledger[i].seq_ == i + 1
  }

  lemma GoodIsProjectable(env: Env, state: State)
    requires Good(env, state) && ContinuitySound(state.tables)
    ensures Projectable(env.registry, state)
  {
    forall i | 0 <= i < |state.ledger|
      ensures state.ledger[i].seq_ == i + 1
    {
      assert EntrySoundAt(env, state.ledger, i);
    }
  }

  lemma ClaimsCarryTheirIds(registry: Registry, w: Wire, order: seq<Id>, t: Tables)
    requires R.Sound(registry, t) && Faithful(w) && Lists(order, t.claims.Keys)
    ensures
      var claims := Rows(order, t.claims, w.claimRow);
      forall i :: 0 <= i < |claims| ==> claims[i].documentId == claims[i].id
  {
    forall i | 0 <= i < |order|
      ensures t.claims[order[i]].document.claimId == order[i]
    {}
  }

  lemma DocumentsAreDistinct(w: Wire, order: Order, t: Tables)
    requires ContinuitySound(t) && Faithful(w) && ListsTables(order, t)
    ensures P.DistinctDocuments(Rows(order.decisions, t.decisions, w.decisionRow))
    ensures P.DistinctDocuments(Rows(order.questions, t.questions, w.questionRow))
    ensures P.DistinctDocuments(Rows(order.workItems, t.workItems, w.workItemRow))
  {
    NamedDocuments(Rows(order.decisions, t.decisions, w.decisionRow), order.decisions, w.idText, "decision_id");
    NamedDocuments(Rows(order.questions, t.questions, w.questionRow), order.questions, w.idText, "question_id");
    NamedDocuments(Rows(order.workItems, t.workItems, w.workItemRow), order.workItems, w.idText, "work_item_id");
  }

  lemma StoreIsReadable(registry: Registry, w: Wire, order: Order, state: State)
    requires Projectable(registry, state) && Faithful(w) && ListsTables(order, state.tables)
    ensures P.Readable(StoreOf(w, order, state))
  {
    ClaimsCarryTheirIds(registry, w, order.claims, state.tables);
    DocumentsAreDistinct(w, order, state.tables);
  }

  /** The members of a conflict are claims, also as they are written. */
  lemma MembersAreClaims(registry: Registry, w: Wire, claims: seq<P.ClaimRow>, order: seq<Id>, t: Tables, c: Id)
    requires R.Sound(registry, t) && Faithful(w) && c in t.conflicts
    requires Lists(order, t.claims.Keys) && claims == Rows(order, t.claims, w.claimRow)
    ensures !P.LacksMembers(claims, w.conflictRow(c, t.conflicts[c]))
  {
    var row := w.conflictRow(c, t.conflicts[c]);
    assert R.RowSound(registry, t.claims, c, t.conflicts[c]);
    assert AreMembers(row.members, t.conflicts[c].members, w.idText);
    forall m | m in row.members
      ensures P.IsClaim(claims, m)
    {
      var id :| id in t.conflicts[c].members && m == w.idText(id);
      var i :| 0 <= i < |order| && order[i] == id;
      assert claims[i].documentId == m;
    }
  }

  lemma {:induction false} NoneLacking(store: P.Store, n: nat)
    requires n <= |store.conflicts|
    requires forall i :: 0 <= i < |store.conflicts| ==> !P.LacksMembers(store.claims, store.conflicts[i])
    ensures P.Lacking(store, n) == None
  {
    if n > 0 {
      NoneLacking(store, n - 1);
    }
  }

  lemma NothingLacks(registry: Registry, w: Wire, order: Order, state: State)
    requires R.Sound(registry, state.tables) && Faithful(w) && ListsTables(order, state.tables)
    ensures P.Lacking(StoreOf(w, order, state), |StoreOf(w, order, state).conflicts|) == None
  {
    var store := StoreOf(w, order, state);
    forall i | 0 <= i < |store.conflicts|
      ensures !P.LacksMembers(store.claims, store.conflicts[i])
    {
      MembersAreClaims(registry, w, store.claims, order.claims, state.tables, order.conflicts[i]);
    }
    NoneLacking(store, |store.conflicts|);
  }

  lemma StatusTextsAreKnown(d: DecisionStatus, q: QuestionStatus, i: WorkStatus)
    ensures !d.DecisionOther? ==> DecisionStatusText(d) in P.DECISIONS.known
    ensures !q.QuestionOther? ==> QuestionStatusText(q) in P.QUESTIONS.known
    ensures !i.WorkOther? ==> WorkStatusText(i) in P.WORK_ITEMS.known
  {}

  lemma StatusesAreKnown(w: Wire, order: Order, state: State)
    requires ContinuitySound(state.tables) && Faithful(w) && ListsTables(order, state.tables)
    ensures
      var store := StoreOf(w, order, state);
      && P.StatusesKnown(store.decisions, P.DECISIONS.known)
      && P.StatusesKnown(store.questions, P.QUESTIONS.known)
      && P.StatusesKnown(store.workItems, P.WORK_ITEMS.known)
  {
    var t, store := state.tables, StoreOf(w, order, state);
    forall i | 0 <= i < |store.decisions|
      ensures store.decisions[i].status.Some? && store.decisions[i].status.value in P.DECISIONS.known
    {
      StatusTextsAreKnown(t.decisions[order.decisions[i]].status, QuestionOpen, Todo);
    }
    forall i | 0 <= i < |store.questions|
      ensures store.questions[i].status.Some? && store.questions[i].status.value in P.QUESTIONS.known
    {
      StatusTextsAreKnown(DecisionActive, t.questions[order.questions[i]].status, Todo);
    }
    forall i | 0 <= i < |store.workItems|
      ensures store.workItems[i].status.Some? && store.workItems[i].status.value in P.WORK_ITEMS.known
    {
      StatusTextsAreKnown(DecisionActive, QuestionOpen, t.workItems[order.workItems[i]].status);
    }
  }

  // ------------------------------------------------------------- what a context can show

  function ActiveClaims(t: Tables): set<Id> {
    set c | c in t.claims && t.claims[c].status == Active
  }

  function OpenConflicts(t: Tables): set<Id> {
    set c | c in t.conflicts && t.conflicts[c].status == Open
  }

  function DisputedClaims(t: Tables): set<Id> {
    set c, m | c in OpenConflicts(t) && m in t.conflicts[c].members :: m
  }

  function ActiveDecisions(t: Tables): set<Id> {
    set d | d in t.decisions && t.decisions[d].status == DecisionActive
  }

  function OpenQuestions(t: Tables): set<Id> {
    set q | q in t.questions && t.questions[q].status == QuestionOpen
  }

  function ActiveWorkItems(t: Tables): set<Id> {
    set i | i in t.workItems && t.workItems[i].status in {Todo, Doing, Blocked}
  }

  /** Active claims and those in open conflicts, open conflicts, and active continuity records. */
  function Showable(t: Tables): set<Id> {
    ActiveClaims(t) + DisputedClaims(t) + OpenConflicts(t) + ActiveDecisions(t) + OpenQuestions(t) + ActiveWorkItems(t)
  }

  function Texts(w: Wire, ids: set<Id>): set<string> {
    set id | id in ids :: w.idText(id)
  }

  lemma ActiveClaimsSelected(w: Wire, rows: seq<P.ClaimRow>, order: seq<Id>, t: Tables)
    requires Faithful(w) && Lists(order, t.claims.Keys) && rows == Rows(order, t.claims, w.claimRow)
    requires forall c :: c in t.claims ==> t.claims[c].document.claimId == c
    ensures (set i | 0 <= i < |rows| && rows[i].status == "ACTIVE" :: rows[i].documentId) == Texts(w, ActiveClaims(t))
  {
    var selected := set i | 0 <= i < |rows| && rows[i].status == "ACTIVE" :: rows[i].documentId;
    forall text | text in Texts(w, ActiveClaims(t))
      ensures text in selected
    {
      var c :| c in ActiveClaims(t) && text == w.idText(c);
      var i :| 0 <= i < |order| && order[i] == c;
      assert rows[i].documentId == text;
    }
  }

  lemma OpenConflictsSelected(w: Wire, rows: seq<P.ConflictRow>, order: seq<Id>, t: Tables)
    requires Faithful(w) && Lists(order, t.conflicts.Keys) && rows == Rows(order, t.conflicts, w.conflictRow)
    ensures (set i | 0 <= i < |rows| && P.IsOpen(rows[i]) :: rows[i].id) == Texts(w, OpenConflicts(t))
  {
    var selected := set i | 0 <= i < |rows| && P.IsOpen(rows[i]) :: rows[i].id;
    forall text | text in Texts(w, OpenConflicts(t))
      ensures text in selected
    {
      var c :| c in OpenConflicts(t) && text == w.idText(c);
      var i :| 0 <= i < |order| && order[i] == c;
      assert rows[i].id == text;
    }
  }

  lemma DisputedClaimsSelected(w: Wire, rows: seq<P.ConflictRow>, order: seq<Id>, t: Tables)
    requires Faithful(w) && Lists(order, t.conflicts.Keys) && rows == Rows(order, t.conflicts, w.conflictRow)
    ensures P.ConflictedClaims(rows) == Texts(w, DisputedClaims(t))
  {
    forall text | text in P.ConflictedClaims(rows)
      ensures text in Texts(w, DisputedClaims(t))
    {
      var i, m :| 0 <= i < |rows| && P.IsOpen(rows[i]) && m in rows[i].members && text == m;
      assert AreMembers(rows[i].members, t.conflicts[order[i]].members, w.idText);
      var id :| id in t.conflicts[order[i]].members && m == w.idText(id);
      assert order[i] in OpenConflicts(t) && id in DisputedClaims(t);
    }
    forall text | text in Texts(w, DisputedClaims(t))
      ensures text in P.ConflictedClaims(rows)
    {
      var id :| id in DisputedClaims(t) && text == w.idText(id);
      var c :| c in OpenConflicts(t) && id in t.conflicts[c].members;
      var i :| 0 <= i < |order| && order[i] == c;
      assert AreMembers(rows[i].members, t.conflicts[c].members, w.idText);
      assert P.IsOpen(rows[i]) && text in rows[i].members;
    }
  }

  /** Rows of a section, each active exactly when its record is. */
  lemma SectionSelected(w: Wire, section: P.Section, rows: seq<P.ContinuityRow>, order: seq<Id>, active: set<Id>)
    requires |rows| == |order| && forall i :: 0 <= i < |rows| ==> rows[i].id == w.idText(order[i])
    requires forall i :: 0 <= i < |rows| ==> (P.IsActive(section, rows[i]) <==> order[i] in active)
    requires forall id :: id in active ==> id in order
    ensures P.ActiveIds(section, rows) == Texts(w, active)
  {
    forall text | text in Texts(w, active)
      ensures text in P.ActiveIds(section, rows)
    {
      var id :| id in active && text == w.idText(id);
      var i :| 0 <= i < |order| && order[i] == id;
      assert rows[i].id == text;
    }
  }

  lemma StatusTextsAreActive(d: DecisionStatus, q: QuestionStatus, i: WorkStatus)
    ensures !d.DecisionOther? ==> (DecisionStatusText(d) in P.DECISIONS.active <==> d == DecisionActive)
    ensures !q.QuestionOther? ==> (QuestionStatusText(q) in P.QUESTIONS.active <==> q == QuestionOpen)
    ensures !i.WorkOther? ==> (WorkStatusText(i) in P.WORK_ITEMS.active <==> i in {Todo, Doing, Blocked})
  {}

  lemma ContinuitySelected(w: Wire, order: Order, t: Tables)
    requires Faithful(w) && ContinuitySound(t) && ListsTables(order, t)
    ensures P.ActiveIds(P.DECISIONS, Rows(order.decisions, t.decisions, w.decisionRow)) == Texts(w, ActiveDecisions(t))
    ensures P.ActiveIds(P.QUESTIONS, Rows(order.questions, t.questions, w.questionRow)) == Texts(w, OpenQuestions(t))
    ensures P.ActiveIds(P.WORK_ITEMS, Rows(order.workItems, t.workItems, w.workItemRow)) == Texts(w, ActiveWorkItems(t))
  {
    DecisionsSelected(w, order.decisions, t);
    QuestionsSelected(w, order.questions, t);
    WorkItemsSelected(w, order.workItems, t);
  }

  lemma DecisionsSelected(w: Wire, order: seq<Id>, t: Tables)
    requires Faithful(w) && ContinuitySound(t) && Lists(order, t.decisions.Keys)
    ensures P.ActiveIds(P.DECISIONS, Rows(order, t.decisions, w.decisionRow)) == Texts(w, ActiveDecisions(t))
  {
    var rows := Rows(order, t.decisions, w.decisionRow);
    forall i | 0 <= i < |rows|
      ensures P.IsActive(P.DECISIONS, rows[i]) <==> order[i] in ActiveDecisions(t)
    {
      StatusTextsAreActive(t.decisions[order[i]].status, QuestionOpen, Todo);
    }
    SectionSelected(w, P.DECISIONS, rows, order, ActiveDecisions(t));
  }

  lemma QuestionsSelected(w: Wire, order: seq<Id>, t: Tables)
    requires Faithful(w) && ContinuitySound(t) && Lists(order, t.questions.Keys)
    ensures P.ActiveIds(P.QUESTIONS, Rows(order, t.questions, w.questionRow)) == Texts(w, OpenQuestions(t))
  {
    var rows := Rows(order, t.questions, w.questionRow);
    forall i | 0 <= i < |rows|
      ensures P.IsActive(P.QUESTIONS, rows[i]) <==> order[i] in OpenQuestions(t)
    {
      StatusTextsAreActive(DecisionActive, t.questions[order[i]].status, Todo);
    }
    SectionSelected(w, P.QUESTIONS, rows, order, OpenQuestions(t));
  }

  lemma WorkItemsSelected(w: Wire, order: seq<Id>, t: Tables)
    requires Faithful(w) && ContinuitySound(t) && Lists(order, t.workItems.Keys)
    ensures P.ActiveIds(P.WORK_ITEMS, Rows(order, t.workItems, w.workItemRow)) == Texts(w, ActiveWorkItems(t))
  {
    var rows := Rows(order, t.workItems, w.workItemRow);
    forall i | 0 <= i < |rows|
      ensures P.IsActive(P.WORK_ITEMS, rows[i]) <==> order[i] in ActiveWorkItems(t)
    {
      StatusTextsAreActive(DecisionActive, QuestionOpen, t.workItems[order[i]].status);
    }
    SectionSelected(w, P.WORK_ITEMS, rows, order, ActiveWorkItems(t));
  }

  /** The records that get a history in a context are exactly the showable ones. */
  lemma SelectedAreShowable(registry: Registry, w: Wire, order: Order, state: State)
    requires Projectable(registry, state) && Faithful(w) && ListsTables(order, state.tables)
    ensures P.Selected(StoreOf(w, order, state)) == Texts(w, Showable(state.tables))
  {
    var t, store := state.tables, StoreOf(w, order, state);
    ActiveClaimsSelected(w, store.claims, order.claims, t);
    DisputedClaimsSelected(w, store.conflicts, order.conflicts, t);
    OpenConflictsSelected(w, store.conflicts, order.conflicts, t);
    ContinuitySelected(w, order, t);
    TextsOfAll(w, t);
  }

  lemma TextsOfAll(w: Wire, t: Tables)
    ensures Texts(w, Showable(t))
         == Texts(w, ActiveClaims(t)) + Texts(w, DisputedClaims(t)) + Texts(w, OpenConflicts(t))
            + Texts(w, ActiveDecisions(t)) + Texts(w, OpenQuestions(t)) + Texts(w, ActiveWorkItems(t))
  {}

  lemma NotRefused(registry: Registry, w: Wire, order: Order, state: State)
    requires Projectable(registry, state) && Faithful(w) && ListsTables(order, state.tables)
    ensures P.Refused(StoreOf(w, order, state)) == None
  {
    NothingLacks(registry, w, order, state);
    StatusesAreKnown(w, order, state);
  }

  /** The projections of a sound state. */
  ghost predicate BothProjected(w: Wire, order: Order, state: State)
    requires ListsTables(order, state.tables)
  {
    var store := StoreOf(w, order, state);
    && P.FullProjection(store) == Ok(P.FullOf(store)) && P.ContextProjection(store) == Ok(P.ContextOf(store))
    && P.Agrees(store, P.ContextOf(store), P.FullOf(store))
    && P.Selected(store) == Texts(w, Showable(state.tables))
    && forall id :: H.NowhereOnlyUnderVersions(store.ledger, id)
  }

  lemma NowhereUnderVersions(w: Wire, ledger: seq<Entry>)
    requires Faithful(w)
    ensures forall id :: H.NowhereOnlyUnderVersions(LedgerRows(w, ledger), id)
  {
    forall i | 0 <= i < |ledger|
      ensures H.RowVersionIds(LedgerRows(w, ledger)[i]) == {}
    {
      NothingUnderVersions(w, ledger[i]);
    }
  }

  lemma SoundProjectionsAgree(registry: Registry, w: Wire, order: Order, state: State)
    requires Projectable(registry, state) && Faithful(w) && ListsTables(order, state.tables)
    ensures BothProjected(w, order, state)
  {
    var store := StoreOf(w, order, state);
    StoreIsReadable(registry, w, order, state);
    NotRefused(registry, w, order, state);
    P.ProjectionsAgree(store);
    SelectedAreShowable(registry, w, order, state);
    NowhereUnderVersions(w, state.ledger);
  }

  lemma ReachableIsProjectable(env: Env, inputs: seq<Submission>)
    requires FamiliesNamePredicate(env.registry)
    ensures Projectable(env.registry, Run(env, EMPTY_STATE, inputs))
  {
    var state := Run(env, EMPTY_STATE, inputs);
    ReachableIsGood(env, inputs);
    ReplayRefinesCommit(env, inputs);
    ReplayKeepsContinuitySound(env.registry, History(state.ledger));
    GoodIsProjectable(env, state);
  }

  /** After every run of commits both projections can be built, whatever the rows are written as and
      in whatever order they are read. They agree on everything but history, and the history of what
      a context can show is the tail of the full one; what it can show are the showable records. */
  lemma ReachableProjectionsAgree(env: Env, w: Wire, order: Order, inputs: seq<Submission>, state: State)
    requires FamiliesNamePredicate(env.registry) && Faithful(w)
    requires state == Run(env, EMPTY_STATE, inputs) && ListsTables(order, state.tables)
    ensures BothProjected(w, order, state)
  {
    ReachableIsProjectable(env, inputs);
    SoundProjectionsAgree(env.registry, w, order, state);
  }
}
