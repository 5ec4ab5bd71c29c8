/** The full projection of a store, which reads every ledger document, and the faster one a context
    is built from, which reads the last ledger entries of the records it can show. */
module Projections {
  import opened Json
  import opened JsonOrder
  import opened ProjectionHistory
  import opened TextRules
  import opened Wrappers

  // ------------------------------------------------------------------- what both read

  datatype SourceRow = SourceRow(id: string, document: Json, size: nat, contentHash: string)
  datatype EvidenceRow = EvidenceRow(id: string, claimId: string, sourceId: string, document: Json)

  /** `documentId` is the identifier inside the document. */
  datatype ClaimRow = ClaimRow(
    id: string, documentId: string, document: Json, proposition: Json, propositionHash: string,
    status: string, version: nat, supersededBy: Option<string>)

  datatype ConflictRow = ConflictRow(
    id: string, familyKey: string, kind: string, memberDigest: string, members: seq<string>, status: string,
    episode: nat, version: nat, resolution: Json, openedSequence: nat)

  /** `cells` is the row as it is shown: every column under its name. */
  datatype ContinuityRow = ContinuityRow(id: string, status: Option<string>, document: Json, cells: Json)

  datatype Store = Store(
    stateRoot: string, sources: seq<SourceRow>, claims: seq<ClaimRow>, evidence: seq<EvidenceRow>,
        conflicts: seq<ConflictRow>,
    decisions: seq<ContinuityRow>, questions: seq<ContinuityRow>, workItems: seq<ContinuityRow>, ledger: seq<LedgerRow>)

  // ------------------------------------------------------------------ what both show

  datatype EntryRecord = EntryRecord(row: LedgerRow, place: Place)
  datatype SourceRecord = SourceRecord(row: SourceRow, history: History, place: Place)
  datatype EvidenceRecord = EvidenceRecord(row: EvidenceRow, history: History, place: Place)
  datatype ClaimRecord = ClaimRecord(
    row: ClaimRow, evidenceLinkIds: seq<string>, conflictIds: seq<string>, history: History, place: Place)
  datatype ConflictRecord = ConflictRecord(row: ConflictRow, members: seq<string>, history: History, place: Place)
  datatype ContinuityRecord = ContinuityRecord(table: string, row: ContinuityRow, history: History, place: Place)

  datatype Projection = Projection(
    stateRoot: string, headSequence: nat, headHash: Option<string>, entries: seq<EntryRecord>,
    sources: seq<SourceRecord>, claims: seq<ClaimRecord>, evidence: seq<EvidenceRecord>, conflicts: seq<ConflictRecord>,
    decisions: seq<ContinuityRecord>, questions: seq<ContinuityRecord>, workItems: seq<ContinuityRecord>)

  datatype Failure = NoLedgerDocument | MissingMembers(conflictId: string) | UnknownStatus(section: string)

  /** A kind of continuity record: its table, its section, and its statuses. */
  datatype Section = Section(table: string, name: string, active: set<string>, known: set<string>)

  const DECISIONS: Section := Section("decision_records", "decisions", {"ACTIVE"}, {"ACTIVE", "SUPERSEDED", "REVERSED"})
  const QUESTIONS: Section := Section("open_questions", "questions", {"OPEN"}, {"OPEN", "ANSWERED", "DROPPED"})
  const WORK_ITEMS: Section :=
    Section("work_items", "work_items", {"TODO", "DOING", "BLOCKED"}, {"TODO", "DOING", "BLOCKED", "DONE", "DROPPED"})

  // --------------------------------------------------------------------------- cross links

  function Itself(text: string): string {
    text
  }

  function SortedTexts(texts: seq<string>): seq<string> {
    Arranged(texts, Itself)
  }

  /** The evidence of a claim, in row order. */
  function EvidenceIds(evidence: seq<EvidenceRow>, claimId: string): seq<string> {
    if evidence == [] then []
    else
      var last := evidence[|evidence| - 1];
      EvidenceIds(evidence[..|evidence| - 1], claimId) + if last.claimId == claimId then [last.id] else []
  }

  function Occurrences(members: seq<string>, claimId: string, conflictId: string): seq<string> {
    if members == [] then []
    else
      Occurrences(members[..|members| - 1], claimId, conflictId) + if members[|members| - 1] == claimId
          then [conflictId] else []
  }

  /** The conflicts a claim is a member of, resolved ones included. */
  function ConflictIds(conflicts: seq<ConflictRow>, claimId: string): seq<string> {
    if conflicts == [] then []
    else
      var last := conflicts[|conflicts| - 1];
      ConflictIds(conflicts[..|conflicts| - 1], claimId) + Occurrences(last.members, claimId, last.id)
  }

  // ------------------------------------------------------------------------- refusals

  predicate IsOpen(row: ConflictRow) {
    row.status == "OPEN"
  }

  predicate IsClaim(claims: seq<ClaimRow>, id: string) {
    exists i :: 0 <= i < |claims| && claims[i].documentId == id
  }

  predicate LacksMembers(claims: seq<ClaimRow>, row: ConflictRow) {
    IsOpen(row) && exists m :: m in row.members && !IsClaim(claims, m)
  }

  /** The first open conflict one of whose members is no claim. */
  function Lacking(store: Store, n: nat): Option<Failure>
    requires n <= |store.conflicts|
  {
    if n == 0 then None
    else
      var before := Lacking(store, n - 1);
      if before.Some? then before
      else if LacksMembers(store.claims, store.conflicts[n - 1]) then Some(MissingMembers(store.conflicts[n - 1].id))
          else None
  }

  predicate StatusesKnown(rows: seq<ContinuityRow>, known: set<string>) {
    forall i :: 0 <= i < |rows| ==> rows[i].status.Some? && rows[i].status.value in known
  }

  /** Why no projection of these rows is made. */
  function Refused(store: Store): Option<Failure> {
    var lacking := Lacking(store, |store.conflicts|);
    if lacking.Some? then lacking
    else if !StatusesKnown(store.decisions, DECISIONS.known) then Some(UnknownStatus(DECISIONS.name))
    else if !StatusesKnown(store.questions, QUESTIONS.known) then Some(UnknownStatus(QUESTIONS.name))
    else if !StatusesKnown(store.workItems, WORK_ITEMS.known) then Some(UnknownStatus(WORK_ITEMS.name))
    else None
  }

  // ------------------------------------------------------------------- continuity records

  function PlaceJson(place: Place): Json {
    Text(PlaceText(place))
  }

  /** The text a continuity record is sorted by: its canonical rendering before it has a place. */
  function RecordText(table: string, row: ContinuityRow, history: History): string {
    Render(Object([Member("document", row.document)] + LaterMembers(table, row, history)))
  }

  function LaterMembers(table: string, row: ContinuityRow, history: History): seq<Member> {
    [
      Member("history_refs", List(seq(|history.refs|,
          i requires 0 <= i < |history.refs| => PlaceJson(history.refs[i])))),
      Member("history_sequences",
          List(seq(|history.sequences|, i requires 0 <= i < |history.sequences| => Number(history.sequences[i])))),
      Member("row", row.cells),
      Member("table", Text(table))]
  }

  /** Rows in the order of their records, whose histories are already complete. */
  function FullOrder(ledger: seq<LedgerRow>, section: Section, rows: seq<ContinuityRow>): seq<ContinuityRow> {
    Arranged(rows, (row: ContinuityRow) => RecordText(section.table, row, FullHistory(ledger, row.id)))
  }

  /** Rows in the order of their records, whose histories are still empty. */
  function ContextOrder(section: Section, rows: seq<ContinuityRow>): seq<ContinuityRow> {
    Arranged(rows, (row: ContinuityRow) => RecordText(section.table, row, NO_HISTORY))
  }

  function SectionPlace(section: Section, i: nat): Place {
    Place("continuity/" + section.name, i)
  }

  function FullRecord(ledger: seq<LedgerRow>, section: Section, row: ContinuityRow, i: nat): ContinuityRecord {
    ContinuityRecord(section.table, row, FullHistory(ledger, row.id), SectionPlace(section, i))
  }

  predicate IsActive(section: Section, row: ContinuityRow) {
    row.status.Some? && row.status.value in section.active
  }

  function ContextRecord(ledger: seq<LedgerRow>, section: Section, row: ContinuityRow, i: nat): ContinuityRecord {
    var place := SectionPlace(section, i);
    ContinuityRecord(section.table, row, if IsActive(section, row) then SelectedHistory(ledger, row.id, place)
        else NO_HISTORY, place)
  }

  function FullRecords(ledger: seq<LedgerRow>, section: Section, rows: seq<ContinuityRow>): seq<ContinuityRecord> {
    Recorded(ledger, section, FullOrder(ledger, section, rows), |rows|)
  }

  /** The records of the first `n` sorted rows. */
  function Recorded(ledger: seq<LedgerRow>, section: Section, order: seq<ContinuityRow>,
      n: nat): (records: seq<ContinuityRecord>)
    requires n <= |order|
    ensures |records| == n && forall i :: 0 <= i < n ==> records[i] == FullRecord(ledger, section, order[i], i)
  {
    if n == 0 then [] else Recorded(ledger, section, order, n - 1) + [FullRecord(ledger, section, order[n - 1], n - 1)]
  }

  function ContextRecords(ledger: seq<LedgerRow>, section: Section, rows: seq<ContinuityRow>): seq<ContinuityRecord> {
    var order := ContextOrder(section, rows);
    seq(|order|, i requires 0 <= i < |order| => ContextRecord(ledger, section, order[i], i))
  }

  // ------------------------------------------------------------------------- selection

  function SelectedHistory(ledger: seq<LedgerRow>, id: string, place: Place): History {
    ContextHistory(ContextSequences(ledger, id), place)
  }

  function ActiveIds(section: Section, rows: seq<ContinuityRow>): set<string> {
    set i | 0 <= i < |rows| && IsActive(section, rows[i]) :: rows[i].id
  }

  function ConflictedClaims(conflicts: seq<ConflictRow>): set<string> {
    set i, m | 0 <= i < |conflicts| && IsOpen(conflicts[i]) && m in conflicts[i].members :: m
  }

  /** The records a context can show: active claims, open conflicts with their members, and active
      decisions, questions and work items. */
  function Selected(store: Store): set<string> {
    (set i | 0 <= i < |store.claims| && store.claims[i].status == "ACTIVE" :: store.claims[i].documentId)
    + ConflictedClaims(store.conflicts)
    + (set i | 0 <= i < |store.conflicts| && IsOpen(store.conflicts[i]) :: store.conflicts[i].id)
    + ActiveIds(DECISIONS, store.decisions) + ActiveIds(QUESTIONS, store.questions) + ActiveIds(WORK_ITEMS,
        store.workItems)
  }

  // ------------------------------------------------------------------------ projections

  function ClaimPlace(i: nat): Place { Place("claims", i) }
  function ConflictPlace(i: nat): Place { Place("conflicts", i) }
  function EvidencePlace(i: nat): Place { Place("evidence", i) }

  /** A claim with its cross links, before it has a history. */
  function BareClaim(store: Store, i: nat): ClaimRecord
    requires i < |store.claims|
  {
    var row := store.claims[i];
    ClaimRecord(row, SortedTexts(EvidenceIds(store.evidence, row.id)),
        SortedTexts(ConflictIds(store.conflicts, row.id)), NO_HISTORY, ClaimPlace(i))
  }

  function FullClaim(store: Store, i: nat): ClaimRecord
    requires i < |store.claims|
  {
    BareClaim(store, i).(history := FullHistory(store.ledger, store.claims[i].id))
  }

  function ContextClaim(store: Store, i: nat): ClaimRecord
    requires i < |store.claims|
  {
    var id := store.claims[i].documentId;
    if id in Selected(store) then BareClaim(store, i).(history := SelectedHistory(store.ledger, id, ClaimPlace(i)))
        else BareClaim(store, i)
  }

  function BareConflict(store: Store, i: nat): ConflictRecord
    requires i < |store.conflicts|
  {
    ConflictRecord(store.conflicts[i], SortedTexts(store.conflicts[i].members), NO_HISTORY, ConflictPlace(i))
  }

  function FullConflict(store: Store, i: nat): ConflictRecord
    requires i < |store.conflicts|
  {
    BareConflict(store, i).(history := FullHistory(store.ledger, store.conflicts[i].id))
  }

  function ContextConflict(store: Store, i: nat): ConflictRecord
    requires i < |store.conflicts|
  {
    var row := store.conflicts[i];
    if IsOpen(row) then BareConflict(store, i).(history := SelectedHistory(store.ledger, row.id, ConflictPlace(i)))
        else BareConflict(store, i)
  }

  function FullEvidence(store: Store, i: nat): EvidenceRecord
    requires i < |store.evidence|
  {
    EvidenceRecord(store.evidence[i], FullHistory(store.ledger, store.evidence[i].id), EvidencePlace(i))
  }

  function ContextEvidence(store: Store, i: nat): EvidenceRecord
    requires i < |store.evidence|
  {
    EvidenceRecord(store.evidence[i], NO_HISTORY, EvidencePlace(i))
  }

  /** The first `n` of them. */
  function FullClaims(store: Store, n: nat): (records: seq<ClaimRecord>)
    requires n <= |store.claims|
    ensures |records| == n && forall i :: 0 <= i < n ==> records[i] == FullClaim(store, i)
  {
    if n == 0 then [] else FullClaims(store, n - 1) + [FullClaim(store, n - 1)]
  }

  function ContextClaims(store: Store): seq<ClaimRecord> {
    seq(|store.claims|, i requires 0 <= i < |store.claims| => ContextClaim(store, i))
  }

  /** The first `n` of them. */
  function FullConflicts(store: Store, n: nat): (records: seq<ConflictRecord>)
    requires n <= |store.conflicts|
    ensures |records| == n && forall i :: 0 <= i < n ==> records[i] == FullConflict(store, i)
  {
    if n == 0 then [] else FullConflicts(store, n - 1) + [FullConflict(store, n - 1)]
  }

  function ContextConflicts(store: Store): seq<ConflictRecord> {
    seq(|store.conflicts|, i requires 0 <= i < |store.conflicts| => ContextConflict(store, i))
  }

  /** The first `n` of them. */
  function FullEvidenceList(store: Store, n: nat): (records: seq<EvidenceRecord>)
    requires n <= |store.evidence|
    ensures |records| == n && forall i :: 0 <= i < n ==> records[i] == FullEvidence(store, i)
  {
    if n == 0 then [] else FullEvidenceList(store, n - 1) + [FullEvidence(store, n - 1)]
  }

  function ContextEvidenceList(store: Store): seq<EvidenceRecord> {
    seq(|store.evidence|, i requires 0 <= i < |store.evidence| => ContextEvidence(store, i))
  }

  function FullSource(store: Store, i: nat): SourceRecord
    requires i < |store.sources|
  {
    SourceRecord(store.sources[i], FullHistory(store.ledger, store.sources[i].id), Place("sources", i))
  }

  /** The first `n` of them. */
  function FullSources(store: Store, n: nat): (records: seq<SourceRecord>)
    requires n <= |store.sources|
    ensures |records| == n
  {
    if n == 0 then [] else FullSources(store, n - 1) + [FullSource(store, n - 1)]
  }

  function Entries(ledger: seq<LedgerRow>): seq<EntryRecord> {
    seq(|ledger|, i requires 0 <= i < |ledger| => EntryRecord(ledger[i], Place(ENTRIES, i)))
  }

  function HeadSequence(ledger: seq<LedgerRow>): nat {
    if ledger == [] then 0 else ledger[|ledger| - 1].seqNo
  }

  function HeadHash(ledger: seq<LedgerRow>): Option<string> {
    if ledger == [] then None else Some(ledger[|ledger| - 1].entryHash)
  }

  predicate Documented(ledger: seq<LedgerRow>) {
    forall i :: 0 <= i < |ledger| ==> ledger[i].document.Some?
  }

  /** Every record with its whole history, and every ledger document. */
  function FullOf(store: Store): Projection {
    Projection(
      store.stateRoot, HeadSequence(store.ledger), HeadHash(store.ledger),
      Entries(store.ledger), FullSources(store, |store.sources|),
      FullClaims(store, |store.claims|), FullEvidenceList(store, |store.evidence|),
          FullConflicts(store, |store.conflicts|),
      FullRecords(store.ledger, DECISIONS, store.decisions),
      FullRecords(store.ledger, QUESTIONS, store.questions),
      FullRecords(store.ledger, WORK_ITEMS, store.workItems))
  }

  /** The same records, with history only for those a context can show, and no ledger document. */
  function ContextOf(store: Store): Projection {
    Projection(
      store.stateRoot, HeadSequence(store.ledger), HeadHash(store.ledger), [], [],
      ContextClaims(store), ContextEvidenceList(store), ContextConflicts(store),
      ContextRecords(store.ledger, DECISIONS, store.decisions),
      ContextRecords(store.ledger, QUESTIONS, store.questions),
      ContextRecords(store.ledger, WORK_ITEMS, store.workItems))
  }

  function FullProjection(store: Store): Result<Projection, Failure> {
    if !Documented(store.ledger) then Err(NoLedgerDocument)
    else if Refused(store).Some? then Err(Refused(store).value)
    else Ok(FullOf(store))
  }

  function ContextProjection(store: Store): Result<Projection, Failure> {
    if Refused(store).Some? then Err(Refused(store).value) else Ok(ContextOf(store))
  }

  // ------------------------------------------------------------------------ main results

  /** What the kernel guarantees of its rows: embedded identifiers, documents that are objects and
      differ from row to row, and a ledger without gaps in which every entry has its document. */
  ghost predicate DistinctDocuments(rows: seq<ContinuityRow>) {
    && (forall i :: 0 <= i < |rows| ==> rows[i].document.Object?)
    && (forall i, j :: 0 <= i < j < |rows| ==> rows[i].document != rows[j].document)
  }

  ghost predicate Readable(store: Store) {
    && Contiguous(store.ledger) && Documented(store.ledger)
    && (forall i :: 0 <= i < |store.claims| ==> store.claims[i].documentId == store.claims[i].id)
    && DistinctDocuments(store.decisions) && DistinctDocuments(store.questions) && DistinctDocuments(store.workItems)
  }

  /** Records are sorted by a text that contains their histories, yet the order is the same with and
      without them: the document comes first and decides. */
  lemma SortedAlike(ledger: seq<LedgerRow>, section: Section, rows: seq<ContinuityRow>)
    requires DistinctDocuments(rows)
    ensures FullOrder(ledger, section, rows) == ContextOrder(section, rows)
  {
    var full := (row: ContinuityRow) => RecordText(section.table, row, FullHistory(ledger, row.id));
    var context := (row: ContinuityRow) => RecordText(section.table, row, NO_HISTORY);
    forall a, b | a in multiset(rows) && b in multiset(rows)
      ensures Before(full(a), full(b)) <==> Before(context(a), context(b))
    {
      if a == b {
        BeforeTotal(full(a), full(b));
        BeforeTotal(context(a), context(b));
      } else {
        assert a in rows && b in rows;
        FirstMemberDecides("document", a.document, b.document,
          LaterMembers(section.table, a, FullHistory(ledger, a.id)),
              LaterMembers(section.table, b, FullHistory(ledger, b.id)));
        FirstMemberDecides("document", a.document, b.document,
          LaterMembers(section.table, a, NO_HISTORY), LaterMembers(section.table, b, NO_HISTORY));
      }
    }
    ArrangedAlike(rows, full, context);
  }

  /** A record that is shown has the tail of its full history exactly when no ledger row mentions it
      only under "versions"; any other record has none. */
  ghost predicate HistoryAgrees(ledger: seq<LedgerRow>, id: string, shown: bool, context: History, full: History,
      place: Place) {
    if shown then (IsTailOf(context, full, place) <==> NowhereOnlyUnderVersions(ledger, id)) else context == NO_HISTORY
  }

  ghost predicate ClaimAgrees(store: Store, c: ClaimRecord, f: ClaimRecord) {
    && c.(history := f.history) == f
    && HistoryAgrees(store.ledger, f.row.id, f.row.id in Selected(store), c.history, f.history, f.place)
  }

  ghost predicate ConflictAgrees(store: Store, c: ConflictRecord, f: ConflictRecord) {
    && c.(history := f.history) == f
    && HistoryAgrees(store.ledger, f.row.id, IsOpen(f.row), c.history, f.history, f.place)
  }

  ghost predicate RecordAgrees(ledger: seq<LedgerRow>, section: Section, c: ContinuityRecord, f: ContinuityRecord) {
    && c.(history := f.history) == f
    && HistoryAgrees(ledger, f.row.id, IsActive(section, f.row), c.history, f.history, f.place)
  }

  ghost predicate RecordsAgree(ledger: seq<LedgerRow>, section: Section, c: seq<ContinuityRecord>,
      f: seq<ContinuityRecord>) {
    |c| == |f| && forall i :: 0 <= i < |f| ==> RecordAgrees(ledger, section, c[i], f[i])
  }

  ghost predicate EvidenceAgrees(c: EvidenceRecord, f: EvidenceRecord) {
    c.(history := f.history) == f && c.history == NO_HISTORY
  }

  ghost predicate ClaimListsAgree(store: Store, c: seq<ClaimRecord>, f: seq<ClaimRecord>) {
    |c| == |f| && forall i :: 0 <= i < |f| ==> ClaimAgrees(store, c[i], f[i])
  }

  ghost predicate EvidenceListsAgree(c: seq<EvidenceRecord>, f: seq<EvidenceRecord>) {
    |c| == |f| && forall i :: 0 <= i < |f| ==> EvidenceAgrees(c[i], f[i])
  }

  ghost predicate ConflictListsAgree(store: Store, c: seq<ConflictRecord>, f: seq<ConflictRecord>) {
    |c| == |f| && forall i :: 0 <= i < |f| ==> ConflictAgrees(store, c[i], f[i])
  }

  /** The two projections agree on everything but history, and on the history of what is shown. */
  ghost predicate Agrees(store: Store, c: Projection, f: Projection) {
    && c.stateRoot == f.stateRoot && c.headSequence == f.headSequence && c.headHash == f.headHash
    && ClaimListsAgree(store, c.claims, f.claims) && EvidenceListsAgree(c.evidence, f.evidence)
    && ConflictListsAgree(store, c.conflicts, f.conflicts)
    && RecordsAgree(store.ledger, DECISIONS, c.decisions, f.decisions)
    && RecordsAgree(store.ledger, QUESTIONS, c.questions, f.questions)
    && RecordsAgree(store.ledger, WORK_ITEMS, c.workItems, f.workItems)
  }

  lemma SelectedHistoryAgrees(ledger: seq<LedgerRow>, id: string, shown: bool, place: Place)
    requires Contiguous(ledger)
    ensures HistoryAgrees(ledger, id, shown, if shown then SelectedHistory(ledger, id, place)
        else NO_HISTORY, FullHistory(ledger, id), place)
  {
    ContextHistoryIsTail(ledger, id, place);
  }

  lemma SectionAgrees(ledger: seq<LedgerRow>, section: Section, rows: seq<ContinuityRow>)
    requires Contiguous(ledger) && DistinctDocuments(rows)
    ensures RecordsAgree(ledger, section, ContextRecords(ledger, section, rows), FullRecords(ledger, section, rows))
  {
    SortedAlike(ledger, section, rows);
    var order, context, full := FullOrder(ledger, section, rows), ContextRecords(ledger, section, rows),
        FullRecords(ledger, section, rows);
    forall i | 0 <= i < |rows|
      ensures RecordAgrees(ledger, section, context[i], full[i])
    {
      SelectedHistoryAgrees(ledger, order[i].id, IsActive(section, order[i]), SectionPlace(section, i));
    }
  }

  lemma ClaimsAgree(store: Store)
    requires Readable(store)
    ensures ClaimListsAgree(store, ContextClaims(store), FullClaims(store, |store.claims|))
  {
    var context, full := ContextClaims(store), FullClaims(store, |store.claims|);
    forall i | 0 <= i < |store.claims|
      ensures ClaimAgrees(store, context[i], full[i])
    {
      var id := store.claims[i].id;
      SelectedHistoryAgrees(store.ledger, id, id in Selected(store), ClaimPlace(i));
    }
  }

  lemma ConflictsAgree(store: Store)
    requires Readable(store)
    ensures ConflictListsAgree(store, ContextConflicts(store), FullConflicts(store, |store.conflicts|))
  {
    var context, full := ContextConflicts(store), FullConflicts(store, |store.conflicts|);
    forall i | 0 <= i < |store.conflicts|
      ensures ConflictAgrees(store, context[i], full[i])
    {
      var row := store.conflicts[i];
      SelectedHistoryAgrees(store.ledger, row.id, IsOpen(row), ConflictPlace(i));
    }
  }

  lemma EvidenceAgree(store: Store)
    ensures EvidenceListsAgree(ContextEvidenceList(store), FullEvidenceList(store, |store.evidence|))
  {
    var context, full := ContextEvidenceList(store), FullEvidenceList(store, |store.evidence|);
    forall i | 0 <= i < |store.evidence|
      ensures EvidenceAgrees(context[i], full[i])
    {
      assert full[i] == FullEvidence(store, i);
    }
  }

  lemma BuiltAlike(store: Store)
    requires Readable(store)
    ensures Agrees(store, ContextOf(store), FullOf(store))
  {
    ClaimsAgree(store);
    ConflictsAgree(store);
    EvidenceAgree(store);
    SectionAgrees(store.ledger, DECISIONS, store.decisions);
    SectionAgrees(store.ledger, QUESTIONS, store.questions);
    SectionAgrees(store.ledger, WORK_ITEMS, store.workItems);
  }

  /** The fast projection agrees with the full one, and is refused for the same reason. */
  lemma ProjectionsAgree(store: Store)
    requires Readable(store)
    ensures Refused(store).Some? ==> FullProjection(store) == ContextProjection(store) == Err(Refused(store).value)
    ensures Refused(store).None? ==>
        FullProjection(store) == Ok(FullOf(store)) && ContextProjection(store) == Ok(ContextOf(store))
    ensures Agrees(store, ContextOf(store), FullOf(store))
  {
    BuiltAlike(store);
  }

  // -------------------------------------------------------------------------- the builders

  method CheckRows(store: Store) returns (refused: Option<Failure>)
    ensures refused == Refused(store)
  {
    refused := None;
    for i := 0 to |store.conflicts|
      invariant refused == Lacking(store, i)
    {
      if refused.None? && LacksMembers(store.claims, store.conflicts[i]) {
        refused := Some(MissingMembers(store.conflicts[i].id));
      }
    }
    if refused.Some? {
      return;
    }
    if !StatusesKnown(store.decisions, DECISIONS.known) {
      return Some(UnknownStatus(DECISIONS.name));
    }
    if !StatusesKnown(store.questions, QUESTIONS.known) {
      return Some(UnknownStatus(QUESTIONS.name));
    }
    if !StatusesKnown(store.workItems, WORK_ITEMS.known) {
      return Some(UnknownStatus(WORK_ITEMS.name));
    }
    return None;
  }

  /** The history of a record from the index, with the places the entries were given. */
  method IndexedHistory(ledger: seq<LedgerRow>, byId: map<string, set<nat>>, id: string) returns (history: History)
    requires FullyIndexes(byId, ledger)
    ensures history == FullHistory(ledger, id)
  {
    history := HistoryOf(ledger, if id in byId then byId[id] else {});
  }

  method BuildClaims(store: Store, byId: map<string, set<nat>>) returns (claims: seq<ClaimRecord>)
    requires FullyIndexes(byId, store.ledger)
    ensures claims == FullClaims(store, |store.claims|)
  {
    claims := [];
    for i := 0 to |store.claims|
      invariant claims == FullClaims(store, i)
    {
      var id := store.claims[i].id;
      var history := IndexedHistory(store.ledger, byId, id);
      claims := claims + [BareClaim(store, i).(history := history)];
    }
  }

  method BuildConflicts(store: Store, byId: map<string, set<nat>>) returns (conflicts: seq<ConflictRecord>)
    requires FullyIndexes(byId, store.ledger)
    ensures conflicts == FullConflicts(store, |store.conflicts|)
  {
    conflicts := [];
    for i := 0 to |store.conflicts|
      invariant conflicts == FullConflicts(store, i)
    {
      var id := store.conflicts[i].id;
      var history := IndexedHistory(store.ledger, byId, id);
      conflicts := conflicts + [BareConflict(store, i).(history := history)];
    }
  }

  method BuildEvidence(store: Store, byId: map<string, set<nat>>) returns (evidence: seq<EvidenceRecord>)
    requires FullyIndexes(byId, store.ledger)
    ensures evidence == FullEvidenceList(store, |store.evidence|)
  {
    evidence := [];
    for i := 0 to |store.evidence|
      invariant evidence == FullEvidenceList(store, i)
    {
      var history := IndexedHistory(store.ledger, byId, store.evidence[i].id);
      evidence := evidence + [EvidenceRecord(store.evidence[i], history, EvidencePlace(i))];
    }
  }

  method BuildSources(store: Store, byId: map<string, set<nat>>) returns (sources: seq<SourceRecord>)
    requires FullyIndexes(byId, store.ledger)
    ensures sources == FullSources(store, |store.sources|)
  {
    sources := [];
    for i := 0 to |store.sources|
      invariant sources == FullSources(store, i)
    {
      var history := IndexedHistory(store.ledger, byId, store.sources[i].id);
      sources := sources + [SourceRecord(store.sources[i], history, Place("sources", i))];
    }
  }

  method BuildRecords(ledger: seq<LedgerRow>, byId: map<string, set<nat>>, section: Section, rows: seq<ContinuityRow>)
    returns (records: seq<ContinuityRecord>)
    requires FullyIndexes(byId, ledger)
    ensures records == FullRecords(ledger, section, rows)
  {
    records := BuildSorted(ledger, byId, section, FullOrder(ledger, section, rows));
  }

  method BuildSorted(ledger: seq<LedgerRow>, byId: map<string, set<nat>>, section: Section, order: seq<ContinuityRow>)
    returns (records: seq<ContinuityRecord>)
    requires FullyIndexes(byId, ledger)
    ensures records == Recorded(ledger, section, order, |order|)
  {
    records := [];
    for i := 0 to |order|
      invariant records == Recorded(ledger, section, order, i)
    {
      var history := IndexedHistory(ledger, byId, order[i].id);
      records := records + [ContinuityRecord(section.table, order[i], history, SectionPlace(section, i))];
    }
  }

  method BuildProjection(store: Store) returns (projection: Result<Projection, Failure>)
    ensures projection == FullProjection(store)
  {
    var byId := HistorySequences(store.ledger);
    if !Documented(store.ledger) {
      return Err(NoLedgerDocument);
    }
    var refused := CheckRows(store);
    if refused.Some? {
      return Err(refused.value);
    }
    var sources := BuildSources(store, byId);
    var claims := BuildClaims(store, byId);
    var evidence := BuildEvidence(store, byId);
    var conflicts := BuildConflicts(store, byId);
    var decisions := BuildRecords(store.ledger, byId, DECISIONS, store.decisions);
    var questions := BuildRecords(store.ledger, byId, QUESTIONS, store.questions);
    var workItems := BuildRecords(store.ledger, byId, WORK_ITEMS, store.workItems);
    return Ok(Projection(store.stateRoot, HeadSequence(store.ledger), HeadHash(store.ledger), Entries(store.ledger),
      sources, claims, evidence, conflicts, decisions, questions, workItems));
  }

  /** The claims without history, then a history for each that is selected. */
  method BuildContextClaims(store: Store, byId: map<string, set<nat>>) returns (claims: seq<ClaimRecord>)
    requires Indexes(byId, store.ledger, Selected(store))
    ensures claims == ContextClaims(store)
  {
    claims := seq(|store.claims|, i requires 0 <= i < |store.claims| => BareClaim(store, i));
    for i := 0 to |claims|
      invariant |claims| == |store.claims|
      invariant forall k ::
          0 <= k < |claims| ==> claims[k] == if k < i then ContextClaim(store, k) else BareClaim(store, k)
    {
      var id := store.claims[i].documentId;
      if id in Selected(store) {
        var history := SetContextHistory(store.ledger, byId, Selected(store), id, claims[i].place);
        claims := claims[i := claims[i].(history := history)];
      }
    }
  }

  method BuildContextConflicts(store: Store, byId: map<string, set<nat>>) returns (conflicts: seq<ConflictRecord>)
    requires Indexes(byId, store.ledger, Selected(store))
    ensures conflicts == ContextConflicts(store)
  {
    conflicts := seq(|store.conflicts|, i requires 0 <= i < |store.conflicts| => BareConflict(store, i));
    for i := 0 to |conflicts|
      invariant |conflicts| == |store.conflicts|
      invariant forall k :: 0 <= k < |conflicts| ==>
                  conflicts[k] == if k < i then ContextConflict(store, k) else BareConflict(store, k)
    {
      var row := store.conflicts[i];
      if IsOpen(row) {
        var history := SetContextHistory(store.ledger, byId, Selected(store), row.id, conflicts[i].place);
        conflicts := conflicts[i := conflicts[i].(history := history)];
      }
    }
  }

  method BuildContextRecords(ledger: seq<LedgerRow>, byId: map<string, set<nat>>, selected: set<string>,
      section: Section, rows: seq<ContinuityRow>)
    returns (records: seq<ContinuityRecord>)
    requires Indexes(byId, ledger, selected) && ActiveIds(section, rows) <= selected
    ensures records == ContextRecords(ledger, section, rows)
  {
    var order := ContextOrder(section, rows);
    records := seq(|order|, i requires 0 <= i < |order| => ContinuityRecord(section.table, order[i], NO_HISTORY,
        SectionPlace(section, i)));
    for i := 0 to |records|
      invariant |records| == |order|
      invariant forall k ::
          i <= k < |records| ==>
          records[k] == ContinuityRecord(section.table, order[k], NO_HISTORY, SectionPlace(section, k))
      invariant forall k :: 0 <= k < i ==> records[k] == ContextRecord(ledger, section, order[k], k)
    {
      if IsActive(section, order[i]) {
        assert order[i] in multiset(order) && order[i] in multiset(rows);
        var history := SetContextHistory(ledger, byId, selected, order[i].id, records[i].place);
        records := records[i := records[i].(history := history)];
      }
    }
  }

  method BuildContextProjection(store: Store) returns (projection: Result<Projection, Failure>)
    ensures projection == ContextProjection(store)
  {
    var refused := CheckRows(store);
    if refused.Some? {
      return Err(refused.value);
    }
    var selected := Selected(store);
    var byId := SelectedHistorySequences(store.ledger, selected);
    var claims := BuildContextClaims(store, byId);
    var conflicts := BuildContextConflicts(store, byId);
    var decisions := BuildContextRecords(store.ledger, byId, selected, DECISIONS, store.decisions);
    var questions := BuildContextRecords(store.ledger, byId, selected, QUESTIONS, store.questions);
    var workItems := BuildContextRecords(store.ledger, byId, selected, WORK_ITEMS, store.workItems);
    return Ok(Projection(store.stateRoot, HeadSequence(store.ledger), HeadHash(store.ledger), [],
      [], claims, ContextEvidenceList(store), conflicts, decisions, questions, workItems));
  }
}
