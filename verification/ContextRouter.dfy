/** Routing task context: scored candidates are added while the response, which states its own
    length and carries the hash of the rest, stays within the budget. */
module ContextRouter {
  import opened Json
  import opened Wrappers

  datatype Kind = Record | Scenario | Skill

  datatype Candidate = Candidate(kind: Kind, id: string, score: int, value: Json, reasons: seq<string>)

  datatype Failure =
    | ReferenceExceedsBudget(id: string)
    | BudgetTooSmall(requiredBytes: nat)

  /** The response as it is built; it has no hash until it has been measured once. */
  datatype Response = Response(
    head: Header, tasks: Tasks, trace: seq<Json>,
    includedBytes: nat, omitted: nat, traceOmitted: nat, contextHash: Option<string>)

  /** What is settled before any candidate is considered. */
  datatype Header = Header(request: Json, core: Json, stateRoot: string, ledgerSequence: nat, selector: string,
      budgetBytes: int)

  datatype Tasks = Tasks(records: seq<Json>, scenarios: seq<Json>, skills: seq<Json>)

  // ------------------------------------------------------------------------ documents

  function KindName(kind: Kind): string {
    match kind
    case Record => "record"
    case Scenario => "scenario"
    case Skill => "skill"
  }

  function Entry(c: Candidate): Json {
    Object([Member("id", Text(c.id)), Member("score", Number(c.score)), Member("value", c.value)])
  }

  function TraceEntry(c: Candidate, included: bool): Json {
    var reasons := if included then c.reasons else c.reasons + ["budget exceeded"];
    Object([
      Member("id", Text(c.id)),
      Member("included", Boolean(included)),
      Member("kind", Text(KindName(c.kind))),
      Member("reasons", List(seq(|reasons|, i requires 0 <= i < |reasons| => Text(reasons[i]))))])
  }

  function BudgetMembers(r: Response): seq<Member> {
    [
      Member("budget_bytes", Number(r.head.budgetBytes)),
      Member("included_bytes", Number(r.includedBytes)),
      Member("omitted", Number(r.omitted)),
      Member("trace_omitted", Number(r.traceOmitted))]
  }

  function TaskMembers(t: Tasks): seq<Member> {
    [Member("records", List(t.records)), Member("scenarios", List(t.scenarios)), Member("skills", List(t.skills))]
  }

  /** The members after the hash, in key order. */
  function LaterMembers(r: Response): seq<Member> {
    [
      Member("context_version", Text("shared-task-context@1")),
      Member("core_context", r.head.core),
      Member("kernel_state_root", Text(r.head.stateRoot)),
      Member("ledger_sequence", Number(r.head.ledgerSequence)),
      Member("request", r.head.request),
      Member("selection_trace", List(r.trace)),
      Member("selector_version", Text(r.head.selector)),
      Member("task_context", Object(TaskMembers(r.tasks)))]
  }

  /** Everything the hash covers. */
  function Body(r: Response): Json {
    Object([Member("budget", Object(BudgetMembers(r)))] + LaterMembers(r))
  }

  /** The whole response with a given hash. */
  function Document(r: Response, contextHash: string): Json {
    Object([Member("budget", Object(BudgetMembers(r))), Member("context_hash", Text(contextHash))] + LaterMembers(r))
  }

  // -------------------------------------------------------------------------- lengths

  /** Objects that differ in one member differ in length by that member. */
  lemma OneMemberDiffers(before: seq<Member>, after: seq<Member>, i: nat)
    requires i < |before| == |after| && before[i].key == after[i].key
    requires forall k :: 0 <= k < |before| && k != i ==> before[k] == after[k]
    ensures MembersLength(after) + Length(before[i].value) == MembersLength(before) + Length(after[i].value)
  {
    MembersLengthUpdate(before, i, after[i].value);
    assert before[i := Member(before[i].key, after[i].value)] == after;
  }

  /** The encoded length apart from the recorded length and the hash. */
  function Rest(r: Response): nat {
    Length(Document(r.(includedBytes := 0, contextHash := None), "")) - 1
  }

  lemma FilledLength(first: Member, key: string, text: string, later: seq<Member>)
    ensures Length(Object([first, Member(key, Text(text))] + later))
        == Length(Object([first, Member(key, Text(""))] + later)) + TextLength(text)
  {
    var bare := [first, Member(key, Text(""))] + later;
    MembersLengthUpdate(bare, 1, Text(text));
    assert bare[1 := Member(key, Text(text))] == [first, Member(key, Text(text))] + later;
  }

  lemma HashedLength(r: Response, contextHash: string)
    ensures Length(Document(r, contextHash)) == Length(Document(r, "")) + TextLength(contextHash)
  {
    var first, later := Member("budget", Object(BudgetMembers(r))), LaterMembers(r);
    FilledLength(first, "context_hash", contextHash, later);
  }

  /** A response is as long as its rest, its hash and the digits of the length it records. */
  lemma DocumentLength(r: Response, contextHash: string)
    ensures Length(Document(r, contextHash)) == Rest(r) + TextLength(contextHash) + Digits(r.includedBytes)
  {
    var zero := r.(includedBytes := 0, contextHash := None);
    OneMemberDiffers(Document(zero, "").members, Document(r, "").members, 0);
    IncludedBytesLength(zero, r.includedBytes);
    assert BudgetMembers(r) == BudgetMembers(zero.(includedBytes := r.includedBytes));
    HashedLength(r, contextHash);
  }

  lemma IncludedBytesLength(r: Response, bytes: nat)
    ensures MembersLength(BudgetMembers(r.(includedBytes := bytes))) + Digits(r.includedBytes)
         == MembersLength(BudgetMembers(r)) + Digits(bytes)
  {
    OneMemberDiffers(BudgetMembers(r), BudgetMembers(r.(includedBytes := bytes)), 1);
  }

  lemma BudgetRest(r: Response, s: Response)
    requires s == r.(omitted := s.omitted, traceOmitted := s.traceOmitted)
    ensures Rest(s) + MembersLength(BudgetMembers(r)) == Rest(r) + MembersLength(BudgetMembers(s))
  {
    var zero, other := r.(includedBytes := 0, contextHash := None), s.(includedBytes := 0, contextHash := None);
    OneMemberDiffers(Document(zero, "").members, Document(other, "").members, 0);
    IncludedBytesLength(r, 0);
    IncludedBytesLength(s, 0);
    assert BudgetMembers(zero) == BudgetMembers(r.(includedBytes := 0));
    assert BudgetMembers(other) == BudgetMembers(s.(includedBytes := 0));
  }

  /** Counting one more candidate as left out costs at most one byte. */
  lemma OmittedRest(r: Response)
    ensures Rest(r.(omitted := r.omitted + 1)) <= Rest(r) + 1
  {
    var s := r.(omitted := r.omitted + 1);
    BudgetRest(r, s);
    OneMemberDiffers(BudgetMembers(r), BudgetMembers(s), 2);
    DigitsStep(r.omitted, s.omitted);
  }

  lemma TraceOmittedRest(r: Response)
    ensures Rest(r.(traceOmitted := r.traceOmitted + 1)) <= Rest(r) + 1
  {
    var s := r.(traceOmitted := r.traceOmitted + 1);
    BudgetRest(r, s);
    OneMemberDiffers(BudgetMembers(r), BudgetMembers(s), 3);
    DigitsStep(r.traceOmitted, s.traceOmitted);
  }

  lemma TraceRest(r: Response, trace: seq<Json>)
    ensures Rest(r.(trace := trace)) + ItemsLength(r.trace) == Rest(r) + ItemsLength(trace)
  {
    var zero := r.(includedBytes := 0, contextHash := None);
    OneMemberDiffers(Document(zero, "").members, Document(zero.(trace := trace), "").members, 7);
  }

  lemma TaskRest(r: Response, tasks: Tasks)
    ensures Rest(r.(tasks := tasks)) + MembersLength(TaskMembers(r.tasks)) == Rest(r)
        + MembersLength(TaskMembers(tasks))
  {
    var zero := r.(includedBytes := 0, contextHash := None);
    OneMemberDiffers(Document(zero, "").members, Document(zero.(tasks := tasks), "").members, 9);
  }

  /** Putting an entry where its kind belongs. */
  function Placed(t: Tasks, kind: Kind, entry: Json): Tasks {
    match kind
    case Record => t.(records := t.records + [entry])
    case Scenario => t.(scenarios := t.scenarios + [entry])
    case Skill => t.(skills := t.skills + [entry])
  }

  lemma PlacedLength(t: Tasks, kind: Kind, entry: Json)
    ensures MembersLength(TaskMembers(Placed(t, kind, entry))) <= MembersLength(TaskMembers(t)) + 1 + Length(entry)
  {
    var s := Placed(t, kind, entry);
    match kind
    case Record =>
      OneMemberDiffers(TaskMembers(t), TaskMembers(s), 0);
    case Scenario =>
      OneMemberDiffers(TaskMembers(t), TaskMembers(s), 1);
    case Skill =>
      OneMemberDiffers(TaskMembers(t), TaskMembers(s), 2);
  }

  // --------------------------------------------------------------------- stabilization

  const HASH_LENGTH: nat := 71
  const ROUNDS: nat := 8

  /** Stands for the hash while the response is measured; it is exactly as long. */
  function Placeholder(): (text: string)
    ensures TextLength(text) == HASH_LENGTH
  {
    var text := "sha256:" + seq(64, i => '0');
    PlainTextLength(text);
    text
  }

  /** The length after `k` rounds from a stale recorded length. */
  function SizeAfter(rest: nat, stale: nat, k: nat): nat {
    if k == 0 then stale else rest + Digits(SizeAfter(rest, stale, k - 1))
  }

  /** From the second round on only two lengths are possible. */
  lemma TwoSizes(rest: nat, stale: nat, k: nat)
    requires rest >= HASH_LENGTH && Digits(stale) <= 64 && k >= 2
    ensures rest + Digits(rest) <= SizeAfter(rest, stale, k) <= rest + Digits(rest) + 1
    decreases k
  {
    var before := SizeAfter(rest, stale, k - 1);
    if k > 2 {
      TwoSizes(rest, stale, k - 1);
      DigitsSmall(rest);
    } else {
      assert before == rest + Digits(SizeAfter(rest, stale, 0));
    }
    DigitsMonotone(rest, before);
    DigitsStep(rest, before);
  }

  /** Hence four rounds reach a length that describes itself. */
  lemma RoundsConverge(rest: nat, stale: nat)
    requires rest >= HASH_LENGTH && Digits(stale) <= 64
    ensures SizeAfter(rest, stale, 4) == SizeAfter(rest, stale, 3)
  {
    TwoSizes(rest, stale, 2);
    TwoSizes(rest, stale, 3);
    TwoSizes(rest, stale, 4);
    var second, third := SizeAfter(rest, stale, 2), SizeAfter(rest, stale, 3);
    assert third == rest + Digits(second);
    assert SizeAfter(rest, stale, 4) == rest + Digits(third);
    if second <= third {
      DigitsMonotone(second, third);
    } else {
      DigitsMonotone(third, second);
    }
  }

  /** A length that repeats is never left again. */
  lemma {:induction false} StaysThere(rest: nat, stale: nat, k: nat, m: nat)
    requires k <= m && SizeAfter(rest, stale, k + 1) == SizeAfter(rest, stale, k)
    ensures SizeAfter(rest, stale, m) == SizeAfter(rest, stale, k)
    decreases m
  {
    if k < m {
      StaysThere(rest, stale, k, m - 1);
    }
  }

  /** The rounds never pass a length that describes itself. */
  lemma {:induction false} NeverPasses(rest: nat, stale: nat, k: nat, size: nat)
    requires size == rest + Digits(size)
    ensures size <= stale ==> size <= SizeAfter(rest, stale, k)
    ensures stale <= size ==> SizeAfter(rest, stale, k) <= size
    decreases k
  {
    if k > 0 {
      NeverPasses(rest, stale, k - 1, size);
      var before := SizeAfter(rest, stale, k - 1);
      if size <= before {
        DigitsMonotone(size, before);
      }
      if before <= size {
        DigitsMonotone(before, size);
      }
    }
  }

  /** The recorded length is the length of the response with the placeholder in place of the hash. */
  predicate SelfMeasured(r: Response, size: nat) {
    size == Rest(r) + HASH_LENGTH + Digits(size)
  }

  /** The length that measuring records, starting from the one recorded before. */
  function Settled(r: Response): nat {
    SizeAfter(Rest(r) + HASH_LENGTH, r.includedBytes, ROUNDS)
  }

  /** The length of the measured response. */
  function MeasuredSize(r: Response): nat {
    Rest(r) + HASH_LENGTH + Digits(Settled(r))
  }

  /** The measured response: a recorded length, and the placeholder for the hash. */
  function Measured(r: Response): Response {
    Preview(r, Settled(r))
  }

  function Preview(response: Response, bytes: nat): Response {
    response.(includedBytes := bytes, contextHash := Some(Placeholder()))
  }

  /** From a stale length of up to 64 digits the recorded length is the true one. At a digit boundary
      two lengths describe the response; the larger is recorded exactly when the stale one reached it. */
  lemma SettledIsNearest(r: Response)
    requires Digits(r.includedBytes) <= 64
    ensures SelfMeasured(r, Settled(r)) && MeasuredSize(r) == Settled(r)
    ensures forall size: nat :: SelfMeasured(r, size) ==>
              (size <= r.includedBytes ==> size <= Settled(r)) && (r.includedBytes <= size ==> Settled(r) <= size)
  {
    var rest := Rest(r) + HASH_LENGTH;
    RoundsConverge(rest, r.includedBytes);
    StaysThere(rest, r.includedBytes, 3, ROUNDS - 1);
    StaysThere(rest, r.includedBytes, 3, ROUNDS);
    forall size: nat | SelfMeasured(r, size)
      ensures (size <= r.includedBytes ==> size <= Settled(r)) && (r.includedBytes <= size ==> Settled(r) <= size)
    {
      NeverPasses(rest, r.includedBytes, ROUNDS, size);
    }
  }

  /** `rest` counts the bytes of a response apart from its recorded length and its hash. */
  ghost predicate IsRest(r: Response, rest: nat) {
    rest == Rest(r)
  }

  lemma SettledFrom(r: Response, rest: nat)
    requires IsRest(r, rest)
    ensures Settled(r) == SizeAfter(rest + HASH_LENGTH, r.includedBytes, ROUNDS)
    ensures MeasuredSize(r) == rest + HASH_LENGTH + Digits(Settled(r))
  {}

  method SerializedSize(response: Response, bytes: nat, ghost rest: nat) returns (size: nat)
    requires IsRest(response, rest)
    ensures size == rest + HASH_LENGTH + Digits(bytes)
  {
    DocumentLength(Preview(response, bytes), Placeholder());
    size := Length(Document(Preview(response, bytes), Placeholder()));
  }

  /** Measuring, recording and measuring again until the length stops changing. */
  method Stabilize(response: Response, ghost rest: nat) returns (included: nat, size: nat)
    requires IsRest(response, rest)
    ensures included == SizeAfter(rest + HASH_LENGTH, response.includedBytes, ROUNDS)
    ensures size == rest + HASH_LENGTH + Digits(included)
  {
    included := response.includedBytes;
    var previous: int := -1;
    for k := 0 to ROUNDS
      invariant included == SizeAfter(rest + HASH_LENGTH, response.includedBytes, k)
      invariant previous == if k == 0 then -1 else included
    {
      size := SerializedSize(response, included, rest);
      included := size;
      if size == previous {
        StaysThere(rest + HASH_LENGTH, response.includedBytes, k, ROUNDS);
        break;
      }
      previous := size;
    }
    size := SerializedSize(response, included, rest);
  }

  method StabilizedContextSize(response: Response) returns (measured: Response, size: nat)
    ensures measured == Measured(response) && size == MeasuredSize(response)
  {
    var included: nat;
    ghost var rest := Rest(response);
    SettledFrom(response, rest);
    included, size := Stabilize(response, rest);
    measured := Preview(response, included);
  }
}
