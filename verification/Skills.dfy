/** The shared skill table, and its reconstruction from the committed product proposals. */
module Skills {
  import opened Wrappers

  type Time = int

  datatype Key = Key(skillId: string, version: nat)

  datatype Status = Draft | Tested | Approved | Deprecated

  /** A skill as proposals and readers see it: its columns, the embedded document, and the
      document's fields repeated beside the columns. */
  datatype Record = Record(
    key: Key, status: Status, contentHash: string, createdAt: Time, updatedAt: Time,
    fields: map<string, string>, document: map<string, string>, provenance: map<string, string>)

  /** A row of the table. */
  datatype Row = Row(
    status: Status, contentHash: string, createdAt: Time, updatedAt: Time,
    document: map<string, string>, provenance: map<string, string>)

  type Table = map<Key, Row>
  type Replayed = map<Key, Record>

  const COLUMNS := {"skill_id", "version", "status", "content_hash", "created_at", "updated_at", "document",
      "provenance"}

  /** Reading a row back: the document's fields, then the columns over them. */
  function View(k: Key, row: Row): Record {
    Record(k, row.status, row.contentHash, row.createdAt, row.updatedAt,
           (map["object_type" := "SKILL_RECORD"] + row.document) - COLUMNS, row.document, row.provenance)
  }

  function RowOf(r: Record): Row {
    Row(r.status, r.contentHash, r.createdAt, r.updatedAt, r.document, r.provenance)
  }

  /** Reading the record back from its row gives the record. */
  predicate RowShaped(r: Record) {
    View(r.key, RowOf(r)) == r
  }

  datatype Operation =
    | CreateSkill(skill: Record)
    | ImportSkill(skill: Record)
    | ReviseSkill(skillId: string, expectedVersion: nat, replacement: Record)
    | MarkSkillTested(skillId: string, version: nat)
    | ApproveSkill(skillId: string, version: nat)
    | DeprecateSkill(skillId: string, version: nat, expectedStatus: Status)

  datatype Code = SkillVersionReuse | SkillNotFound | SkillVersionMismatch | SkillRevisionInvalid | SkillStatusMismatch

  // ------------------------------------------------------------------------ the table

  predicate ApprovedAt(t: Table, k: Key) {
    k in t && t[k].status == Approved
  }

  /** No skill has two approved versions. */
  ghost predicate OneApproved(t: Table) {
    forall j, k :: ApprovedAt(t, j) && ApprovedAt(t, k) && j.skillId == k.skillId ==> j == k
  }

  /** Every approved version of a skill but one deprecated. */
  function Demoted(t: Table, skillId: string, except: Option<nat>, time: Time): Table {
    map k | k in t :: if k.skillId == skillId && t[k].status == Approved && except != Some(k.version)
                      then t[k].(status := Deprecated, updatedAt := time) else t[k]
  }

  function Put(t: Table, r: Record, now: Time): Result<Table, Code> {
    if r.key in t then if t[r.key].contentHash != r.contentHash then Err(SkillVersionReuse) else Ok(t)
    else Ok((if r.status == Approved then Demoted(t, r.key.skillId, None, now) else t)[r.key := RowOf(r)])
  }

  function UpdateStatus(t: Table, k: Key, status: Status, expected: Status, time: Time): Result<Table, Code> {
    if k !in t then Err(SkillNotFound)
    else if t[k].status != expected then Err(SkillStatusMismatch)
    else
      var others := if status == Approved then Demoted(t, k.skillId, Some(k.version), time) else t;
      Ok(others[k := t[k].(status := status, updatedAt := time)])
  }

  predicate Latest(t: Table, skillId: string, version: nat) {
    forall k :: k in t && k.skillId == skillId ==> k.version <= version
  }

  function Revise(t: Table, skillId: string, expectedVersion: nat, replacement: Record,
      now: Time): Result<Table, Code> {
    if Key(skillId, expectedVersion) !in t then Err(SkillNotFound)
    else if !Latest(t, skillId, expectedVersion) then Err(SkillVersionMismatch)
    else if replacement.key != Key(skillId, expectedVersion + 1) then Err(SkillRevisionInvalid)
    else Put(t, replacement, now)
  }

  /** What one operation of a proposal does; `now` is the clock when it runs. */
  function Apply(t: Table, op: Operation, occurredAt: Time, now: Time): Result<Table, Code> {
    match op
    case CreateSkill(skill) => Put(t, skill, now)
    case ImportSkill(skill) => Put(t, skill, now)
    case ReviseSkill(skillId, expectedVersion, replacement) => Revise(t, skillId, expectedVersion, replacement, now)
    case MarkSkillTested(skillId, version) => UpdateStatus(t, Key(skillId, version), Tested, Draft, occurredAt)
    case ApproveSkill(skillId, version) => UpdateStatus(t, Key(skillId, version), Approved, Tested, occurredAt)
    case DeprecateSkill(skillId, version, expected) =>
        UpdateStatus(t, Key(skillId, version), Deprecated, expected, occurredAt)
  }

  /** Whatever is proposed, no skill ever has two approved versions. */
  lemma ApplyKeepsOneApproved(t: Table, op: Operation, occurredAt: Time, now: Time)
    requires OneApproved(t) && Apply(t, op, occurredAt, now).Ok?
    ensures OneApproved(Apply(t, op, occurredAt, now).value)
  {
    var after := Apply(t, op, occurredAt, now).value;
    forall j, k | ApprovedAt(after, j) && ApprovedAt(after, k) && j.skillId == k.skillId
      ensures j == k
    {
      assert ApprovedAt(t, j) && ApprovedAt(t, k) ==> j == k;
    }
  }

  // ----------------------------------------------------------------------- the replay

  /** Replay deprecates approved versions, with or without a new time. */
  function DemotedRecords(s: Replayed, skillId: string, time: Option<Time>): Replayed {
    map k | k in s :: if k.skillId == skillId && s[k].status == Approved
                      then s[k].(status := Deprecated, updatedAt := if time.Some? then time.value else s[k].updatedAt)
                          else s[k]
  }

  predicate Replayable(s: Replayed, op: Operation) {
    match op
    case MarkSkillTested(skillId, version) => Key(skillId, version) in s
    case ApproveSkill(skillId, version) => Key(skillId, version) in s
    case DeprecateSkill(skillId, version, _) => Key(skillId, version) in s
    case _ => true
  }

  function Entered(s: Replayed, skill: Record): Replayed {
    (if skill.status == Approved then DemotedRecords(s, skill.key.skillId, None) else s)[skill.key := skill]
  }

  function Replay(s: Replayed, op: Operation, occurredAt: Time): Replayed
    requires Replayable(s, op)
  {
    match op
    case CreateSkill(skill) => Entered(s, skill)
    case ImportSkill(skill) => Entered(s, skill)
    case ReviseSkill(_, _, replacement) => s[replacement.key := replacement]
    case MarkSkillTested(skillId, version) =>
      var k := Key(skillId, version);
      s[k := s[k].(status := Tested, updatedAt := occurredAt)]
    case ApproveSkill(skillId, version) =>
      var k := Key(skillId, version);
      DemotedRecords(s, skillId, Some(occurredAt))[k := s[k].(status := Approved, updatedAt := occurredAt)]
    case DeprecateSkill(skillId, version, _) =>
      var k := Key(skillId, version);
      s[k := s[k].(status := Deprecated, updatedAt := occurredAt)]
  }

  /** The table read back. */
  function Listing(t: Table): Replayed {
    map k | k in t :: View(k, t[k])
  }

  // ------------------------------------------------------------- when they stay the same

  /** A record that enters agrees with its replay if it is row-shaped and deprecates nothing, or
      deprecates a version at the very time that version was last updated. */
  predicate EntersFaithfully(t: Table, r: Record, now: Time) {
    if r.key in t then View(r.key, t[r.key]) == r
    else
      && RowShaped(r)
      && (r.status == Approved ==>
          forall k :: k in t && ApprovedAt(t, k) && k.skillId == r.key.skillId ==> t[k].updatedAt == now)
  }

  /** The guard of one operation, before it runs. */
  predicate Faithful(t: Table, op: Operation, now: Time) {
    match op
    case CreateSkill(skill) => EntersFaithfully(t, skill, now)
    case ImportSkill(skill) => EntersFaithfully(t, skill, now)
    case ReviseSkill(skillId, _, replacement) =>
      && RowShaped(replacement)
      && (replacement.status == Approved ==> forall k :: k in t && k.skillId == skillId ==> !ApprovedAt(t, k))
    case _ => true
  }

  lemma SameReplayed(a: Replayed, b: Replayed)
    requires a.Keys == b.Keys && forall k :: k in a ==> a[k] == b[k]
    ensures a == b
  {
  }

  lemma EnteringAgrees(t: Table, r: Record, now: Time)
    requires OneApproved(t) && Put(t, r, now).Ok?
    ensures Entered(Listing(t), r) == Listing(Put(t, r, now).value) <==> EntersFaithfully(t, r, now)
  {
    var s, after := Listing(t), Listing(Put(t, r, now).value);
    var entered := Entered(s, r);
    if r.key in t {
      assert entered[r.key] == r && after[r.key] == View(r.key, t[r.key]);
      if EntersFaithfully(t, r, now) {
        forall k | k in s
          ensures entered[k] == s[k]
        {
          if k != r.key && r.status == Approved && k.skillId == r.key.skillId {
            assert ApprovedAt(t, r.key) && !ApprovedAt(t, k);
          }
        }
        SameReplayed(entered, after);
      }
    } else {
      NewEntryAgrees(t, r, now);
    }
  }

  /** Another version after a record enters under an unused key, replayed and in the table. */
  lemma OtherVersionAgrees(t: Table, r: Record, now: Time, k: Key)
    requires r.key !in t && k in t
    ensures k in Entered(Listing(t), r) && k in Listing(Put(t, r, now).value)
    ensures
      Entered(Listing(t), r)[k] == Listing(Put(t, r, now).value)[k] <==> KeepsTime(t, r, now, k)
  {
    var demoted := r.status == Approved && ApprovedAt(t, k) && k.skillId == r.key.skillId;
    assert Entered(Listing(t), r)[k] == if demoted then View(k, t[k]).(status := Deprecated) else View(k, t[k]);
  }

  predicate KeepsTime(t: Table, r: Record, now: Time, k: Key)
    requires k in t
  {
    r.status == Approved && ApprovedAt(t, k) && k.skillId == r.key.skillId ==> t[k].updatedAt == now
  }

  lemma SameEntries(t: Table, r: Record, now: Time, entered: Replayed, after: Replayed)
    requires r.key !in t && entered.Keys == after.Keys == t.Keys + {r.key}
    requires entered[r.key] == after[r.key] <==> RowShaped(r)
    requires forall k :: k in t ==> (entered[k] == after[k] <==> KeepsTime(t, r, now, k))
    ensures entered == after <==> EntersFaithfully(t, r, now)
  {
    if EntersFaithfully(t, r, now) {
      assert forall k :: k in t ==> KeepsTime(t, r, now, k);
      SameReplayed(entered, after);
    }
  }

  lemma NewEntryAgrees(t: Table, r: Record, now: Time)
    requires r.key !in t
    ensures Entered(Listing(t), r) == Listing(Put(t, r, now).value) <==> EntersFaithfully(t, r, now)
  {
    var entered, after := Entered(Listing(t), r), Listing(Put(t, r, now).value);
    forall k | k in t
      ensures entered[k] == after[k] <==> KeepsTime(t, r, now, k)
    {
      OtherVersionAgrees(t, r, now, k);
    }
    SameEntries(t, r, now, entered, after);
  }

  lemma RevisionAgrees(t: Table, skillId: string, expectedVersion: nat, replacement: Record, now: Time)
    requires Revise(t, skillId, expectedVersion, replacement, now).Ok?
    ensures
      Listing(t)[replacement.key := replacement]
          == Listing(Revise(t, skillId, expectedVersion, replacement, now).value) <==>
      Faithful(t, ReviseSkill(skillId, expectedVersion, replacement), now)
  {
    NewRevisionAgrees(t, replacement, now);
    assert replacement.status == Approved ==>
        ((forall k :: k in t ==> Undemoted(t, replacement, k)) <==>
            (forall k :: k in t && k.skillId == skillId ==> !ApprovedAt(t, k)));
  }

  predicate Undemoted(t: Table, r: Record, k: Key) {
    !(r.status == Approved && ApprovedAt(t, k) && k.skillId == r.key.skillId)
  }

  lemma NewRevisionAgrees(t: Table, replacement: Record, now: Time)
    requires replacement.key !in t
    ensures
      Listing(t)[replacement.key := replacement] == Listing(Put(t, replacement, now).value) <==>
      RowShaped(replacement) && forall k :: k in t ==> Undemoted(t, replacement, k)
  {
    var replayed, after := Listing(t)[replacement.key := replacement], Listing(Put(t, replacement, now).value);
    forall k | k in t
      ensures replayed[k] == after[k] <==> Undemoted(t, replacement, k)
    {
      OtherVersionRevised(t, replacement, now, k);
    }
    RevisedEntries(t, replacement, replayed, after);
  }

  lemma RevisedEntries(t: Table, replacement: Record, replayed: Replayed, after: Replayed)
    requires replacement.key !in t && replayed.Keys == after.Keys == t.Keys + {replacement.key}
    requires replayed[replacement.key] == after[replacement.key] <==> RowShaped(replacement)
    requires forall k :: k in t ==> (replayed[k] == after[k] <==> Undemoted(t, replacement, k))
    ensures replayed == after <==> (RowShaped(replacement) && forall k :: k in t ==> Undemoted(t, replacement, k))
  {
    if RowShaped(replacement) && forall k :: k in t ==> Undemoted(t, replacement, k) {
      SameReplayed(replayed, after);
    }
  }

  /** Replaying a revision leaves the other versions alone; the table demotes the approved one. */
  lemma OtherVersionRevised(t: Table, replacement: Record, now: Time, k: Key)
    requires replacement.key !in t && k in t
    ensures k in Listing(Put(t, replacement, now).value)
    ensures Listing(t)[k] == Listing(Put(t, replacement, now).value)[k] <==> Undemoted(t, replacement, k)
  {
  }

  lemma StatusAgrees(t: Table, k: Key, status: Status, expected: Status, time: Time, replayed: Replayed)
    requires UpdateStatus(t, k, status, expected, time).Ok?
    requires replayed == (if status == Approved then DemotedRecords(Listing(t), k.skillId, Some(time)) else Listing(t))
                         [k := Listing(t)[k].(status := status, updatedAt := time)]
    ensures replayed == Listing(UpdateStatus(t, k, status, expected, time).value)
  {
    var after := Listing(UpdateStatus(t, k, status, expected, time).value);
    forall j | j in after
      ensures replayed[j] == after[j]
    {
    }
    SameReplayed(replayed, after);
  }

  /** One operation keeps the replay and the table the same exactly when it is faithful. */
  lemma StepAgrees(t: Table, op: Operation, occurredAt: Time, now: Time)
    requires OneApproved(t) && Apply(t, op, occurredAt, now).Ok?
    ensures Replayable(Listing(t), op)
    ensures Replay(Listing(t), op, occurredAt) == Listing(Apply(t, op, occurredAt, now).value) <==> Faithful(t, op, now)
  {
    match op
    case CreateSkill(skill) => EnteringAgrees(t, skill, now);
    case ImportSkill(skill) => EnteringAgrees(t, skill, now);
    case ReviseSkill(skillId, expectedVersion, replacement) =>
        RevisionAgrees(t, skillId, expectedVersion, replacement, now);
    case MarkSkillTested(skillId, version) =>
      StatusAgrees(t, Key(skillId, version), Tested, Draft, occurredAt, Replay(Listing(t), op, occurredAt));
    case ApproveSkill(skillId, version) =>
      StatusAgrees(t, Key(skillId, version), Approved, Tested, occurredAt, Replay(Listing(t), op, occurredAt));
    case DeprecateSkill(skillId, version, expected) =>
      StatusAgrees(t, Key(skillId, version), Deprecated, expected, occurredAt, Replay(Listing(t), op, occurredAt));
  }

  // ------------------------------------------------------------------------- proposals

  /** `clock` is the time at which each operation runs. */
  datatype Proposal = Proposal(
    proposalId: string, idempotencyKey: string, proposedAt: Time, expectedState: Option<StateHash>,
        operations: seq<Operation>)

  datatype ProposalHash = ProposalHash(proposal: Proposal)

  /** The digest of the skill table and of everything else in the product store. */
  datatype StateHash = StateHash(skills: Table, elsewhere: string)

  datatype Outcome = Committed | TransactionConflict | ValidationError

  datatype Reason = Failed(code: Code) | StateHashMismatch | IdempotencyKeyReuse

  datatype Receipt = Receipt(
    proposalId: string, proposalHash: ProposalHash, idempotencyKey: string, outcome: Outcome, reasons: seq<Reason>,
    stateBefore: StateHash, stateAfter: StateHash)

  function OutcomeOf(code: Code): Outcome {
    if code == SkillVersionMismatch || code == SkillStatusMismatch then TransactionConflict else ValidationError
  }

  /** The first `n` operations of a proposal, all or nothing. */
  function ApplyAll(t: Table, operations: seq<Operation>, n: nat, occurredAt: Time,
      clock: seq<Time>): Result<Table, Code>
    requires n <= |operations| == |clock|
  {
    if n == 0 then Ok(t)
    else
      match ApplyAll(t, operations, n - 1, occurredAt, clock)
      case Err(code) => Err(code)
      case Ok(before) => Apply(before, operations[n - 1], occurredAt, clock[n - 1])
  }

  /** Replaying operations; None when an operation names a version the replay does not have. */
  function ReplayAll(s: Replayed, operations: seq<Operation>, n: nat, occurredAt: Time): Option<Replayed>
    requires n <= |operations|
  {
    if n == 0 then Some(s)
    else
      match ReplayAll(s, operations, n - 1, occurredAt)
      case None => None
      case Some(before) =>
          if Replayable(before, operations[n - 1]) then Some(Replay(before, operations[n - 1], occurredAt)) else None
  }

  /** The committed proposals replayed in order. */
  function Rebuild(committed: seq<Proposal>, n: nat): Option<Replayed>
    requires n <= |committed|
  {
    if n == 0 then Some(map[])
    else
      match Rebuild(committed, n - 1)
      case None => None
      case Some(before) =>
          ReplayAll(before, committed[n - 1].operations, |committed[n - 1].operations|, committed[n - 1].proposedAt)
  }

  /** Every operation is faithful when its turn comes. */
  ghost predicate AllFaithful(t: Table, operations: seq<Operation>, n: nat, occurredAt: Time, clock: seq<Time>)
    requires n <= |operations| == |clock|
  {
    n == 0 ||
    (AllFaithful(t, operations, n - 1, occurredAt, clock)
     && (ApplyAll(t, operations, n - 1, occurredAt, clock).Ok? ==>
           Faithful(ApplyAll(t, operations, n - 1, occurredAt, clock).value, operations[n - 1], clock[n - 1])))
  }

  lemma {:induction false} AllKeepOneApproved(t: Table, operations: seq<Operation>, n: nat, occurredAt: Time,
      clock: seq<Time>)
    requires n <= |operations| == |clock| && OneApproved(t) && ApplyAll(t, operations, n, occurredAt, clock).Ok?
    ensures OneApproved(ApplyAll(t, operations, n, occurredAt, clock).value)
  {
    if n > 0 {
      AllKeepOneApproved(t, operations, n - 1, occurredAt, clock);
      ApplyKeepsOneApproved(ApplyAll(t, operations, n - 1, occurredAt, clock).value, operations[n - 1], occurredAt,
          clock[n - 1]);
    }
  }

  lemma {:induction false} ProposalAgrees(t: Table, operations: seq<Operation>, n: nat, occurredAt: Time,
      clock: seq<Time>)
    requires n <= |operations| == |clock| && OneApproved(t)
    requires ApplyAll(t, operations, n, occurredAt, clock).Ok? && AllFaithful(t, operations, n, occurredAt, clock)
    ensures ReplayAll(Listing(t), operations, n,
        occurredAt) == Some(Listing(ApplyAll(t, operations, n, occurredAt, clock).value))
  {
    if n > 0 {
      ProposalAgrees(t, operations, n - 1, occurredAt, clock);
      AllKeepOneApproved(t, operations, n - 1, occurredAt, clock);
      StepAgrees(ApplyAll(t, operations, n - 1, occurredAt, clock).value, operations[n - 1], occurredAt, clock[n - 1]);
    }
  }

  /** The first `n` operations apply, and replaying them gives what they leave. */
  ghost predicate ReplaysTo(t: Table, operations: seq<Operation>, n: nat, occurredAt: Time, clock: seq<Time>)
    requires n <= |operations| == |clock|
  {
    && ApplyAll(t, operations, n, occurredAt, clock).Ok?
    && ReplayAll(Listing(t), operations, n,
         occurredAt) == Some(Listing(ApplyAll(t, operations, n, occurredAt, clock).value))
  }

  ghost predicate AllReplayTo(t: Table, operations: seq<Operation>, n: nat, occurredAt: Time, clock: seq<Time>)
    requires n <= |operations| == |clock|
  {
    forall m :: 0 <= m <= n ==> ReplaysTo(t, operations, m, occurredAt, clock)
  }

  lemma OneMoreReplaysTo(t: Table, operations: seq<Operation>, n: nat, occurredAt: Time, clock: seq<Time>)
    requires n < |operations| == |clock|
    ensures AllReplayTo(t, operations, n + 1, occurredAt, clock) <==>
        AllReplayTo(t, operations, n, occurredAt, clock) && ReplaysTo(t, operations, n + 1, occurredAt, clock)
    ensures AllReplayTo(t, operations, n, occurredAt, clock) ==> ReplaysTo(t, operations, n, occurredAt, clock)
  {}

  /** Replay and table are the same after each of the first `n` operations exactly when these are faithful. */
  lemma {:induction false} AllAgreeExactly(t: Table, operations: seq<Operation>, n: nat, occurredAt: Time,
      clock: seq<Time>)
    requires n <= |operations| == |clock| && OneApproved(t) && ApplyAll(t, operations, n, occurredAt, clock).Ok?
    ensures AllReplayTo(t, operations, n, occurredAt, clock) <==> AllFaithful(t, operations, n, occurredAt, clock)
  {
    if n == 0 {
      assert ReplaysTo(t, operations, 0, occurredAt, clock);
    } else {
      AllAgreeExactly(t, operations, n - 1, occurredAt, clock);
      NextAgreesExactly(t, operations, n - 1, occurredAt, clock);
      OneMoreReplaysTo(t, operations, n - 1, occurredAt, clock);
    }
  }

  lemma NextAgreesExactly(t: Table, operations: seq<Operation>, n: nat, occurredAt: Time, clock: seq<Time>)
    requires n < |operations| == |clock| && OneApproved(t) && ApplyAll(t, operations, n + 1, occurredAt, clock).Ok?
    ensures ReplaysTo(t, operations, n, occurredAt, clock) ==>
        (ReplaysTo(t, operations, n + 1, occurredAt, clock) <==>
            Faithful(ApplyAll(t, operations, n, occurredAt, clock).value, operations[n], clock[n]))
  {
    var before := ApplyAll(t, operations, n, occurredAt, clock).value;
    AllKeepOneApproved(t, operations, n, occurredAt, clock);
    StepAgrees(before, operations[n], occurredAt, clock[n]);
  }

  /** Records that enter under an unused key without being approved are always faithful. */
  lemma UnusedUnapprovedIsFaithful(t: Table, op: Operation, now: Time)
    requires op.CreateSkill? || op.ImportSkill? ==>
        op.skill.key !in t && op.skill.status != Approved && RowShaped(op.skill)
    requires op.ReviseSkill? ==> op.replacement.status != Approved && RowShaped(op.replacement)
    ensures Faithful(t, op, now)
  {
  }
}
