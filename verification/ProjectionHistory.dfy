/** Which ledger entries mention a record: the full projection's search through each entry, and
    the context projection's selection of the last few. */
module ProjectionHistory {
  import opened Json
  import opened Sequences
  import opened Wrappers

  const MAX_CONTEXT_HISTORY_REFS: nat := 16

  // ------------------------------------------------------------------- object identifiers

  /** A key that is "id" or ends with "_id". */
  predicate IsIdKey(key: string) {
    key == "id" || (|key| >= 3 && key[|key| - 3..] == "_id")
  }

  function OwnId(m: Member): set<string> {
    if IsIdKey(m.key) && m.value.Text? then {m.value.text} else {}
  }

  /** The full projection's search: everything except what lies under "versions". */
  function FindObjectIds(j: Json): set<string> {
    match j
    case Object(members) => MemberIds(members)
    case List(items) => ItemIds(items)
    case _ => {}
  }

  function MemberIds(members: seq<Member>): set<string> {
    if members == [] then {}
    else
      var m := members[|members| - 1];
      MemberIds(members[..|members| - 1]) + if m.key == "versions" then {} else OwnId(m) + FindObjectIds(m.value)
  }

  function ItemIds(items: seq<Json>): set<string> {
    if items == [] then {} else ItemIds(items[..|items| - 1]) + FindObjectIds(items[|items| - 1])
  }

  /** The context projection's search walks the whole tree. */
  function TreeIds(j: Json): set<string> {
    match j
    case Object(members) => MemberTreeIds(members)
    case List(items) => ItemTreeIds(items)
    case _ => {}
  }

  function MemberTreeIds(members: seq<Member>): set<string> {
    if members == [] then {}
    else
      var m := members[|members| - 1];
      MemberTreeIds(members[..|members| - 1]) + OwnId(m) + TreeIds(m.value)
  }

  function ItemTreeIds(items: seq<Json>): set<string> {
    if items == [] then {} else ItemTreeIds(items[..|items| - 1]) + TreeIds(items[|items| - 1])
  }

  /** What lies under "versions" somewhere. */
  function IdsUnderVersions(j: Json): set<string> {
    match j
    case Object(members) => MemberVersionIds(members)
    case List(items) => ItemVersionIds(items)
    case _ => {}
  }

  function MemberVersionIds(members: seq<Member>): set<string> {
    if members == [] then {}
    else
      var m := members[|members| - 1];
      MemberVersionIds(members[..|members| - 1]) + if m.key == "versions" then TreeIds(m.value)
          else IdsUnderVersions(m.value)
  }

  function ItemVersionIds(items: seq<Json>): set<string> {
    if items == [] then {} else ItemVersionIds(items[..|items| - 1]) + IdsUnderVersions(items[|items| - 1])
  }

  /** No member anywhere is called "versions". */
  predicate Unversioned(j: Json) {
    match j
    case Object(members) => AllUnversioned(members)
    case List(items) => forall i :: 0 <= i < |items| ==> Unversioned(items[i])
    case _ => true
  }

  predicate AllUnversioned(members: seq<Member>) {
    forall i :: 0 <= i < |members| ==> members[i].key != "versions" && Unversioned(members[i].value)
  }

  lemma {:induction false} NothingUnderAbsentVersions(j: Json)
    requires Unversioned(j)
    ensures IdsUnderVersions(j) == {}
    decreases j, 0
  {
    match j
    case Object(members) =>
      NoMemberHasVersions(members, |members|);
      assert members[..|members|] == members;
    case List(items) =>
      NoItemHasVersions(items, |items|);
      assert items[..|items|] == items;
    case _ =>
  }

  lemma {:induction false} NoMemberHasVersions(members: seq<Member>, n: nat)
    requires n <= |members| && AllUnversioned(members)
    ensures MemberVersionIds(members[..n]) == {}
    decreases members, n
  {
    if n > 0 {
      assert members[..n][..n - 1] == members[..n - 1];
      NoMemberHasVersions(members, n - 1);
      NothingUnderAbsentVersions(members[n - 1].value);
    }
  }

  lemma {:induction false} NoItemHasVersions(items: seq<Json>, n: nat)
    requires n <= |items| && forall i :: 0 <= i < |items| ==> Unversioned(items[i])
    ensures ItemVersionIds(items[..n]) == {}
    decreases items, n
  {
    if n > 0 {
      assert items[..n][..n - 1] == items[..n - 1];
      NoItemHasVersions(items, n - 1);
      NothingUnderAbsentVersions(items[n - 1]);
    }
  }

  /** The two searches differ exactly by the identifiers under "versions". */
  lemma {:induction false} TreeIdsAreFoundOrUnderVersions(j: Json)
    ensures TreeIds(j) == FindObjectIds(j) + IdsUnderVersions(j)
  {
    match j
    case Object(members) => MembersFoundOrUnderVersions(members);
    case List(items) => ItemsFoundOrUnderVersions(items);
    case _ =>
  }

  lemma {:induction false} MembersFoundOrUnderVersions(members: seq<Member>)
    ensures MemberTreeIds(members) == MemberIds(members) + MemberVersionIds(members)
  {
    if members != [] {
      var m := members[|members| - 1];
      MembersFoundOrUnderVersions(members[..|members| - 1]);
      TreeIdsAreFoundOrUnderVersions(m.value);
    }
  }

  lemma {:induction false} ItemsFoundOrUnderVersions(items: seq<Json>)
    ensures ItemTreeIds(items) == ItemIds(items) + ItemVersionIds(items)
  {
    if items != [] {
      ItemsFoundOrUnderVersions(items[..|items| - 1]);
      TreeIdsAreFoundOrUnderVersions(items[|items| - 1]);
    }
  }

  // --------------------------------------------------------------------------- histories

  /** A ledger row as the projections read it; `columns` are those they only copy. */
  datatype LedgerRow = LedgerRow(seqNo: nat, entryHash: string, proposal: Json, events: Json, document: Option<Json>,
      columns: Json)

  /** Ledger sequences start at one and have no gaps. */
  ghost predicate Contiguous(ledger: seq<LedgerRow>) {
    forall i :: 0 <= i < |ledger| ==> ledger[i].seqNo == i + 1
  }

  /** A place in the full projection, as in project.json#/claims/3. */
  datatype Place = Place(section: string, index: int)

  function PlaceText(place: Place): string {
    "project.json#/" + place.section + "/" + Render(Number(place.index))
  }

  const ENTRIES: string := "ledger/entries"

  /** What a record shows of its history; `cut` says how much was left out and where all of it is. */
  datatype History = History(sequences: seq<nat>, refs: seq<Place>, cut: Option<Cut>)

  datatype Cut = Cut(included: nat, omitted: nat, fullRef: Place)

  const NO_HISTORY: History := History([], [], None)

  function RowIds(row: LedgerRow): set<string> {
    FindObjectIds(row.events) + FindObjectIds(row.proposal)
  }

  function RowTreeIds(row: LedgerRow): set<string> {
    TreeIds(List([row.proposal, row.events]))
  }

  function RowVersionIds(row: LedgerRow): set<string> {
    IdsUnderVersions(row.proposal) + IdsUnderVersions(row.events)
  }

  lemma RowTreeSplits(row: LedgerRow)
    ensures RowTreeIds(row) == RowIds(row) + RowVersionIds(row)
  {
    var items := [row.proposal, row.events];
    assert items[..1] == [row.proposal] && [row.proposal][..0] == [];
    TreeIdsAreFoundOrUnderVersions(row.proposal);
    TreeIdsAreFoundOrUnderVersions(row.events);
    assert ItemTreeIds(items[..1]) == ItemTreeIds([]) + TreeIds(row.proposal);
    assert ItemTreeIds(items) == ItemTreeIds(items[..1]) + TreeIds(row.events);
  }

  /** The sequences of the rows in which the full projection finds an identifier. */
  function FullSequences(ledger: seq<LedgerRow>, id: string): set<nat> {
    set i | 0 <= i < |ledger| && id in RowIds(ledger[i]) :: ledger[i].seqNo
  }

  /** The sequences of the rows in which the context query finds it. */
  function ContextSequences(ledger: seq<LedgerRow>, id: string): set<nat> {
    set i | 0 <= i < |ledger| && id in RowTreeIds(ledger[i]) :: ledger[i].seqNo
  }

  /** The full history of a record: every sequence, each with the place of its entry. */
  function FullHistory(ledger: seq<LedgerRow>, id: string): History {
    HistoryOf(ledger, FullSequences(ledger, id))
  }

  function HistoryOf(ledger: seq<LedgerRow>, mentions: set<nat>): History {
    var sequences := Sorted(mentions);
    History(sequences, EntryPlaces(ledger, sequences), None)
  }

  /** The places recorded for the entries with these sequences. */
  function EntryPlaces(ledger: seq<LedgerRow>, sequences: seq<nat>): seq<Place> {
    seq(|sequences|, i requires 0 <= i < |sequences| => Place(ENTRIES, IndexOfSequence(ledger, sequences[i])))
  }

  /** The index of the row with a sequence, as the full projection records it row by row. */
  function IndexOfSequence(ledger: seq<LedgerRow>, n: nat): nat {
    if ledger == [] then 0
    else if ledger[|ledger| - 1].seqNo == n then |ledger| - 1
    else IndexOfSequence(ledger[..|ledger| - 1], n)
  }

  lemma {:induction false} IndexIsPredecessor(ledger: seq<LedgerRow>, n: nat)
    requires Contiguous(ledger) && 1 <= n <= |ledger|
    ensures IndexOfSequence(ledger, n) == n - 1
  {
    if ledger[|ledger| - 1].seqNo != n {
      IndexIsPredecessor(ledger[..|ledger| - 1], n);
    }
  }

  function LastOf<T>(s: seq<T>, n: nat): (r: seq<T>)
    ensures |r| <= |s| && forall i :: 0 <= i < |r| ==> r[i] == s[|s| - |r| + i]
  {
    if |s| > n then s[|s| - n..] else s
  }

  /** No row mentions the identifier only under "versions". */
  ghost predicate NowhereOnlyUnderVersions(ledger: seq<LedgerRow>, id: string) {
    forall i :: 0 <= i < |ledger| && id in RowVersionIds(ledger[i]) ==> id in RowIds(ledger[i])
  }

  lemma SequencesAgree(ledger: seq<LedgerRow>, id: string)
    requires Contiguous(ledger)
    ensures FullSequences(ledger, id) <= ContextSequences(ledger, id)
    ensures FullSequences(ledger, id) == ContextSequences(ledger, id) <==> NowhereOnlyUnderVersions(ledger, id)
  {
    forall i | 0 <= i < |ledger|
      ensures RowTreeIds(ledger[i]) == RowIds(ledger[i]) + RowVersionIds(ledger[i])
    {
      RowTreeSplits(ledger[i]);
    }
    forall i | 0 <= i < |ledger|
      ensures ledger[i].seqNo in FullSequences(ledger, id) <==> id in RowIds(ledger[i])
      ensures ledger[i].seqNo in ContextSequences(ledger, id) <==> id in RowTreeIds(ledger[i])
    {
    }
  }

  // ---------------------------------------------------------------- the selected histories

  /** An index from identifiers to the sequences of the rows that mention them. */
  ghost predicate Indexes(byId: map<string, set<nat>>, ledger: seq<LedgerRow>, selected: set<string>) {
    && (forall id :: id in byId <==> id in selected && ContextSequences(ledger, id) != {})
    && (forall id :: id in byId ==> byId[id] == ContextSequences(ledger, id))
  }

  function WithRow(byId: map<string, set<nat>>, mentioned: set<string>, n: nat): map<string, set<nat>> {
    byId + map id | id in mentioned :: (if id in byId then byId[id] else {}) + {n}
  }

  /** The selected identifiers with the sequences of the rows that mention them. */
  method SelectedHistorySequences(ledger: seq<LedgerRow>, selected: set<string>) returns (byId: map<string, set<nat>>)
    ensures Indexes(byId, ledger, selected)
  {
    byId := map[];
    for i := 0 to |ledger|
      invariant Indexes(byId, ledger[..i], selected)
    {
      RowIndexed(byId, ledger, i, selected);
      byId := WithRow(byId, RowTreeIds(ledger[i]) * selected, ledger[i].seqNo);
    }
    assert ledger[..|ledger|] == ledger;
  }

  lemma RowIndexed(byId: map<string, set<nat>>, ledger: seq<LedgerRow>, i: nat, selected: set<string>)
    requires i < |ledger| && Indexes(byId, ledger[..i], selected)
    ensures Indexes(WithRow(byId, RowTreeIds(ledger[i]) * selected, ledger[i].seqNo), ledger[..i + 1], selected)
  {
    var after := WithRow(byId, RowTreeIds(ledger[i]) * selected, ledger[i].seqNo);
    forall id
      ensures id in after <==> id in selected && ContextSequences(ledger[..i + 1], id) != {}
      ensures id in after ==> after[id] == ContextSequences(ledger[..i + 1], id)
    {
      IdIndexed(byId, ledger, i, selected, id);
    }
  }

  lemma IdIndexed(byId: map<string, set<nat>>, ledger: seq<LedgerRow>, i: nat, selected: set<string>, id: string)
    requires i < |ledger|
    requires id in byId <==> id in selected && ContextSequences(ledger[..i], id) != {}
    requires id in byId ==> byId[id] == ContextSequences(ledger[..i], id)
    ensures
      var after := WithRow(byId, RowTreeIds(ledger[i]) * selected, ledger[i].seqNo);
      && (id in after <==> id in selected && ContextSequences(ledger[..i + 1], id) != {})
      && (id in after ==> after[id] == ContextSequences(ledger[..i + 1], id))
  {
  }

  /** The history a context record gets: the last entries, their places computed from the
      sequences alone, and a count of the rest. */
  function ContextHistory(sequences: set<nat>, fullRef: Place): History {
    TailHistory(Sorted(sequences), fullRef)
  }

  function TailHistory(all: seq<nat>, fullRef: Place): History {
    var shown := LastOf(all, MAX_CONTEXT_HISTORY_REFS);
    History(shown, Places(shown), if |all| > |shown| then Some(Cut(|shown|, |all| - |shown|, fullRef)) else None)
  }

  /** The entry of a sequence is the one just before that index. */
  function PlaceOf(n: int): Place {
    Place(ENTRIES, n - 1)
  }

  function Places(sequences: seq<nat>): (refs: seq<Place>)
    ensures |refs| == |sequences| && forall i :: 0 <= i < |refs| ==> refs[i] == PlaceOf(sequences[i])
  {
    seq(|sequences|, i requires 0 <= i < |sequences| => PlaceOf(sequences[i]))
  }

  /** The index that the full projection builds: every identifier it finds, in every row. */
  ghost predicate FullyIndexes(byId: map<string, set<nat>>, ledger: seq<LedgerRow>) {
    && (forall id :: id in byId <==> FullSequences(ledger, id) != {})
    && (forall id :: id in byId ==> byId[id] == FullSequences(ledger, id))
  }

  method HistorySequences(ledger: seq<LedgerRow>) returns (byId: map<string, set<nat>>)
    ensures FullyIndexes(byId, ledger)
  {
    byId := map[];
    for i := 0 to |ledger|
      invariant FullyIndexes(byId, ledger[..i])
    {
      FullyIndexedRow(byId, ledger, i);
      byId := WithRow(byId, RowIds(ledger[i]), ledger[i].seqNo);
    }
    assert ledger[..|ledger|] == ledger;
  }

  lemma FullyIndexedRow(byId: map<string, set<nat>>, ledger: seq<LedgerRow>, i: nat)
    requires i < |ledger| && FullyIndexes(byId, ledger[..i])
    ensures FullyIndexes(WithRow(byId, RowIds(ledger[i]), ledger[i].seqNo), ledger[..i + 1])
  {
    forall id
      ensures FullSequences(ledger[..i + 1], id) == FullSequences(ledger[..i], id) + if id in RowIds(ledger[i])
          then {ledger[i].seqNo} else {}
    {
      SequencesGrow(ledger, i, id);
    }
  }

  lemma SequencesGrow(ledger: seq<LedgerRow>, i: nat, id: string)
    requires i < |ledger|
    ensures FullSequences(ledger[..i + 1], id) == FullSequences(ledger[..i], id) + if id in RowIds(ledger[i])
        then {ledger[i].seqNo} else {}
  {
  }

  method SetContextHistory(ledger: seq<LedgerRow>, byId: map<string, set<nat>>, ghost selected: set<string>,
      id: string, fullRef: Place)
    returns (history: History)
    requires id in selected && Indexes(byId, ledger, selected)
    ensures history == ContextHistory(ContextSequences(ledger, id), fullRef)
  {
    var sequences := Sorted(if id in byId then byId[id] else {});
    var total := |sequences|;
    if |sequences| > MAX_CONTEXT_HISTORY_REFS {
      sequences := sequences[|sequences| - MAX_CONTEXT_HISTORY_REFS..];
    }
    var omitted := total - |sequences|;
    history := History(sequences, Places(sequences), None);
    if omitted > 0 {
      history := history.(cut := Some(Cut(|sequences|, omitted, fullRef)));
    }
  }

  // ------------------------------------------------------------------------ main results

  function Shown(h: History): nat {
    |h.sequences|
  }

  function LeftOut(h: History): nat {
    if h.cut.None? then 0 else h.cut.value.omitted
  }

  /** The context history is the tail of the full one: the same last sequences with the same
      places, shown plus left out is all there is, and a cut one points to where the full one is. */
  ghost predicate IsTailOf(context: History, full: History, place: Place) {
    && context.sequences == LastOf(full.sequences, MAX_CONTEXT_HISTORY_REFS)
    && context.refs == LastOf(full.refs, MAX_CONTEXT_HISTORY_REFS)
    && Shown(context) + LeftOut(context) == |full.sequences|
    && (context.cut.Some? ==>
          context.cut.value.included == Shown(context) && context.cut.value.omitted > 0
              && context.cut.value.fullRef == place)
  }

  /** For every record the context history is the tail of the full history exactly when no ledger
      row mentions the record only under "versions". */
  lemma ContextHistoryIsTail(ledger: seq<LedgerRow>, id: string, place: Place)
    requires Contiguous(ledger)
    ensures IsTailOf(ContextHistory(ContextSequences(ledger, id), place), FullHistory(ledger, id), place)
       <==> NowhereOnlyUnderVersions(ledger, id)
  {
    SequencesAgree(ledger, id);
    if NowhereOnlyUnderVersions(ledger, id) {
      FullPlaces(ledger, id);
      LastPlaces(FullHistory(ledger, id).sequences);
    } else {
      SmallerSet(FullSequences(ledger, id), ContextSequences(ledger, id));
    }
  }

  /** Ledger sequences have no gaps, so the place the full projection records for an entry is the one
      the context projection computes from its sequence. */
  lemma PlacesAgree(ledger: seq<LedgerRow>, sequences: seq<nat>)
    requires Contiguous(ledger) && forall i :: 0 <= i < |sequences| ==> 1 <= sequences[i] <= |ledger|
    ensures EntryPlaces(ledger, sequences) == Places(sequences)
  {
    forall i | 0 <= i < |sequences|
      ensures IndexOfSequence(ledger, sequences[i]) == sequences[i] - 1
    {
      IndexIsPredecessor(ledger, sequences[i]);
    }
  }

  lemma FullPlaces(ledger: seq<LedgerRow>, id: string)
    requires Contiguous(ledger)
    ensures FullHistory(ledger, id).refs == Places(FullHistory(ledger, id).sequences)
  {
    var sequences := Sorted(FullSequences(ledger, id));
    forall i | 0 <= i < |sequences|
      ensures 1 <= sequences[i] <= |ledger|
    {
      assert sequences[i] in FullSequences(ledger, id);
    }
    PlacesAgree(ledger, sequences);
  }

  lemma LastPlaces(sequences: seq<nat>)
    ensures Places(LastOf(sequences, MAX_CONTEXT_HISTORY_REFS)) == LastOf(Places(sequences), MAX_CONTEXT_HISTORY_REFS)
  {
  }

  lemma SmallerSet(a: set<nat>, b: set<nat>)
    requires a < b
    ensures |a| < |b|
  {
    assert |b| == |a| + |b - a|;
    assert b - a != {};
  }
}
