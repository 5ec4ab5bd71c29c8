/** The router's choice among scored candidates, and what it guarantees. */
module Routing {
  import opened ContextRouter
  import opened Json
  import opened Sequences
  import opened Wrappers

  // ------------------------------------------------------------------------ one candidate

  function With(r: Response, c: Candidate): Response {
    r.(tasks := Placed(r.tasks, c.kind, Entry(c)), trace := r.trace + [TraceEntry(c, true)])
  }

  function Without(r: Response, c: Candidate): Response {
    r.(omitted := r.omitted + 1, trace := r.trace + [TraceEntry(c, false)])
  }

  function WithoutTrace(r: Response, c: Candidate): Response {
    r.(omitted := r.omitted + 1, traceOmitted := r.traceOmitted + 1)
  }

  /** The content is undone, the measurements stay. */
  function Marked(r: Response, measured: Response): Response {
    r.(includedBytes := measured.includedBytes, contextHash := measured.contextHash)
  }

  /** One candidate: shown if the measured response fits, an error if a referenced one does not,
      otherwise left out; with its trace entry if that fits. */
  function Considered(r: Response, c: Candidate, references: set<string>, budget: int): Result<Response, Failure> {
    if MeasuredSize(With(r, c)) <= budget then Ok(Measured(With(r, c)))
    else if c.id in references then Err(ReferenceExceedsBudget(c.id))
    else
      var kept := Marked(r, Measured(With(r, c)));
      if MeasuredSize(Without(kept, c)) <= budget then Ok(Measured(Without(kept, c)))
      else Ok(Marked(WithoutTrace(kept, c), Measured(Without(kept, c))))
  }

  function Considering(references: set<string>, budget: int): (Response, Candidate) -> Result<Response, Failure> {
    (r, c) => Considered(r, c, references, budget)
  }

  /** All candidates in turn, up to the first referenced one that does not fit. */
  function AllConsidered(start: Response, candidates: seq<Candidate>, references: set<string>,
      budget: int): Result<Response, Failure> {
    Steps(start, candidates, Considering(references, budget))
  }

  // -------------------------------------------------------------------------- the closing

  function Popped(r: Response): Response
    requires r.trace != []
  {
    r.(trace := r.trace[..|r.trace| - 1], traceOmitted := r.traceOmitted + 1)
  }

  /** Trace entries given up from the end until the measured response fits. */
  function Trimmed(r: Response, budget: int): Response
    decreases |r.trace|
  {
    if MeasuredSize(r) <= budget || r.trace == [] then r else Trimmed(Popped(Measured(r)), budget)
  }

  /** The response with its hash, and its length recorded once more. */
  function Sealed(r: Response, hash: Json -> string): Response {
    var hashed := r.(contextHash := Some(hash(Body(r))));
    hashed.(includedBytes := Length(Document(hashed, hash(Body(r)))))
  }

  function Finished(r: Response, budget: int, hash: Json -> string): Result<Response, Failure> {
    var trimmed := Trimmed(r, budget);
    if MeasuredSize(trimmed) > budget then Err(BudgetTooSmall(MeasuredSize(trimmed)))
    else
      var sealed := Sealed(Measured(trimmed), hash);
      if sealed.includedBytes > budget then Err(BudgetTooSmall(sealed.includedBytes)) else Ok(sealed)
  }

  function Routed(start: Response, candidates: seq<Candidate>, references: set<string>, budget: int,
      hash: Json -> string):
    Result<Response, Failure>
  {
    match AllConsidered(start, candidates, references, budget)
    case Err(failure) => Err(failure)
    case Ok(r) => Finished(r, budget, hash)
  }

  // --------------------------------------------------------------------------- the router

  method Consider(response: Response, c: Candidate, references: set<string>, budget: int)
      returns (result: Result<Response, Failure>)
    ensures result == Considered(response, c, references, budget)
  {
    var next, size := StabilizedContextSize(With(response, c));
    if size > budget && c.id !in references {
      // The entry and its trace entry are taken back out; the measurements stay.
      next := Marked(response, next);
      var counted := WithoutTrace(next, c);
      next, size := StabilizedContextSize(Without(next, c));
      if size > budget {
        next := Marked(counted, next);
      }
      return Ok(next);
    }
    if size > budget {
      return Err(ReferenceExceedsBudget(c.id));
    }
    return Ok(next);
  }

  method ConsiderAll(start: Response, candidates: seq<Candidate>, references: set<string>, budget: int)
    returns (result: Result<Response, Failure>)
    ensures result == AllConsidered(start, candidates, references, budget)
  {
    var response := start;
    for i := 0 to |candidates|
      invariant Steps(start, candidates[..i], Considering(references, budget)) == Ok(response)
    {
      assert candidates[..i + 1][..i] == candidates[..i];
      result := Consider(response, candidates[i], references, budget);
      if result.Err? {
        FirstFailureStays(start, candidates, Considering(references, budget), i + 1);
        return;
      }
      response := result.value;
    }
    assert candidates[..|candidates|] == candidates;
    return Ok(response);
  }

  /** The closing step: trace entries are given up from the end until the response fits. */
  method Trim(response: Response, budget: int) returns (measured: Response, size: nat)
    ensures measured == Measured(Trimmed(response, budget)) && size == MeasuredSize(Trimmed(response, budget))
  {
    ghost var trimmed := response;
    measured, size := StabilizedContextSize(response);
    while size > budget && measured.trace != []
      invariant Trimmed(trimmed, budget) == Trimmed(response, budget)
      invariant measured == Measured(trimmed) && size == MeasuredSize(trimmed)
      decreases |measured.trace|
    {
      trimmed := Popped(measured);
      measured, size := StabilizedContextSize(Popped(measured));
    }
  }

  method Seal(response: Response, hash: Json -> string) returns (sealed: Response)
    ensures sealed == Sealed(response, hash)
  {
    var digest := hash(Body(response));
    sealed := response.(contextHash := Some(digest));
    sealed := sealed.(includedBytes := Length(Document(sealed, digest)));
  }

  method Route(start: Response, candidates: seq<Candidate>, references: set<string>, hash: Json -> string)
    returns (result: Result<Response, Failure>)
    ensures result == Routed(start, candidates, references, start.head.budgetBytes, hash)
  {
    var budget := start.head.budgetBytes;
    var considered := ConsiderAll(start, candidates, references, budget);
    if considered.Err? {
      return Err(considered.error);
    }
    var measured, size := Trim(considered.value, budget);
    if size > budget {
      return Err(BudgetTooSmall(size));
    }
    var sealed := Seal(measured, hash);
    if sealed.includedBytes > budget {
      return Err(BudgetTooSmall(sealed.includedBytes));
    }
    return Ok(sealed);
  }

  // ------------------------------------------------------------------------- size bounds

  function Growth(c: Candidate): nat {
    Length(Entry(c)) + Length(TraceEntry(c, true)) + Length(TraceEntry(c, false)) + 4
  }

  /** How much the candidates from `n` on can add. */
  function Total(candidates: seq<Candidate>, n: nat): nat
    requires n <= |candidates|
    decreases |candidates| - n
  {
    if n == |candidates| then 0 else Growth(candidates[n]) + Total(candidates, n + 1)
  }

  /** Lengths of at most this many digits settle in the rounds the router allows. */
  const DIGITS: nat := 64

  /** A response whose measurement settles, even after growing by `more` bytes. */
  ghost predicate Short(r: Response, more: nat) {
    Digits(r.includedBytes) <= DIGITS && Digits(Rest(r) + |r.trace| + HASH_LENGTH + more) < DIGITS
  }

  lemma WithRest(r: Response, c: Candidate)
    ensures Rest(With(r, c)) + 1 <= Rest(r) + Growth(c)
  {
    var tasks := Placed(r.tasks, c.kind, Entry(c));
    TaskRest(r, tasks);
    PlacedLength(r.tasks, c.kind, Entry(c));
    TraceRest(r.(tasks := tasks), r.trace + [TraceEntry(c, true)]);
  }

  lemma WithoutRest(r: Response, c: Candidate)
    ensures Rest(Without(r, c)) + 1 <= Rest(r) + Growth(c)
  {
    OmittedRest(r);
    TraceRest(r.(omitted := r.omitted + 1), r.trace + [TraceEntry(c, false)]);
  }

  lemma WithoutTraceRest(r: Response, c: Candidate)
    ensures Rest(WithoutTrace(r, c)) <= Rest(r) + Growth(c)
  {
    OmittedRest(r);
    TraceOmittedRest(r.(omitted := r.omitted + 1));
  }

  lemma PoppedRest(r: Response)
    requires r.trace != []
    ensures Rest(Popped(r)) <= Rest(r) + 1
  {
    var front := r.trace[..|r.trace| - 1];
    TraceRest(r, front);
    assert front + [r.trace[|r.trace| - 1]] == r.trace;
    TraceOmittedRest(r.(trace := front));
  }

  lemma SmallSize(rest: nat, bound: nat, size: nat)
    requires size == rest + Digits(size) && rest <= bound && bound >= 1 && Digits(bound) < DIGITS
    ensures Digits(size) <= DIGITS
  {
    DigitsSmall(size);
    DigitsStep(bound, 2 * bound);
    DigitsMonotone(size, 2 * bound);
  }

  lemma MeasuredIsShort(r: Response, more: nat)
    requires Short(r, more)
    ensures Short(Measured(r), more) && SelfMeasured(r, Settled(r)) && MeasuredSize(r) == Settled(r)
  {
    SettledIsNearest(r);
    SmallSize(Rest(r) + HASH_LENGTH, Rest(r) + |r.trace| + HASH_LENGTH + more, Settled(r));
  }

  lemma ShrinksShort(r: Response, s: Response, more: nat, less: nat)
    requires Short(r, more) && Digits(s.includedBytes) <= DIGITS
        && Rest(s) + |s.trace| + less <= Rest(r) + |r.trace| + more
    ensures Short(s, less)
  {
    DigitsMonotone(Rest(s) + |s.trace| + HASH_LENGTH + less, Rest(r) + |r.trace| + HASH_LENGTH + more);
  }

  // ------------------------------------------------------------------------ main results

  /** What considering a candidate does to the response, by whether it fits. */
  ghost predicate Moved(r: Response, next: Response, c: Candidate, fits: bool, more: nat) {
    && Short(next, more)
    && next.tasks == (if fits then Placed(r.tasks, c.kind, Entry(c)) else r.tasks)
    && next.omitted == r.omitted + (if fits then 0 else 1)
    && |next.trace| + next.traceOmitted == |r.trace| + r.traceOmitted + 1
  }

  /** A candidate is shown exactly when some true length of the response with it fits, namely the one
      nearest to the length recorded before; and the response stays short. */
  lemma CandidateIsJustified(r: Response, c: Candidate, references: set<string>, budget: int,
      more: nat)
    requires Short(r, Growth(c) + more)
    ensures
      var size := MeasuredSize(With(r, c));
      && SelfMeasured(With(r, c), size)
      && (Considered(r, c, references, budget).Err? <==> size > budget && c.id in references)
      && (Considered(r, c, references, budget).Ok? ==>
          Moved(r, Considered(r, c, references, budget).value, c, size <= budget, more))
  {
    WithRest(r, c);
    ShrinksShort(r, With(r, c), Growth(c) + more, more);
    MeasuredIsShort(With(r, c), more);
    var kept := Marked(r, Measured(With(r, c)));
    WithoutRest(kept, c);
    ShrinksShort(r, Without(kept, c), Growth(c) + more, more);
    MeasuredIsShort(Without(kept, c), more);
    WithoutTraceRest(kept, c);
    ShrinksShort(r, Marked(WithoutTrace(kept, c), Measured(Without(kept, c))), Growth(c) + more, more);
  }

  ghost predicate Fresh(start: Response) {
    && start.tasks == Tasks([], [], []) && start.trace == []
    && start.includedBytes == 0 && start.omitted == 0 && start.traceOmitted == 0 && start.contextHash == None
  }

  function Shown(t: Tasks, kind: Kind): seq<Json> {
    match kind
    case Record => t.records
    case Scenario => t.scenarios
    case Skill => t.skills
  }

  function ShownCount(t: Tasks): nat {
    |t.records| + |t.scenarios| + |t.skills|
  }

  lemma PlacedIsShown(t: Tasks, kind: Kind, entry: Json)
    ensures entry in Shown(Placed(t, kind, entry), kind)
    ensures forall k, e :: e in Shown(t, k) ==> e in Shown(Placed(t, kind, entry), k)
    ensures ShownCount(Placed(t, kind, entry)) == ShownCount(t) + 1
  {}

  lemma ConsideredShows(r: Response, c: Candidate, references: set<string>, budget: int)
    requires Considered(r, c, references, budget).Ok?
    ensures
      var next := Considered(r, c, references, budget).value;
      && (c.id in references ==> Entry(c) in Shown(next.tasks, c.kind))
      && (forall kind, entry :: entry in Shown(r.tasks, kind) ==> entry in Shown(next.tasks, kind))
  {
    PlacedIsShown(r.tasks, c.kind, Entry(c));
  }

  /** What the response counts after the first `n` candidates, with `more` bytes still to come. */
  ghost predicate Counted(r: Response, candidates: seq<Candidate>, n: nat, more: nat) {
    && n <= |candidates| && Short(r, Total(candidates, n) + more)
    && ShownCount(r.tasks) + r.omitted == n && |r.trace| + r.traceOmitted == n
  }

  lemma MovedIsCounted(r: Response, next: Response, candidates: seq<Candidate>, n: nat, fits: bool,
      more: nat)
    requires Counted(r, candidates, n, more) && n < |candidates|
    requires Moved(r, next, candidates[n], fits, Total(candidates, n + 1) + more)
    ensures Counted(next, candidates, n + 1, more)
  {
    PlacedIsShown(r.tasks, candidates[n].kind, Entry(candidates[n]));
  }

  lemma StartIsCounted(start: Response, candidates: seq<Candidate>, more: nat)
    requires Fresh(start) && Short(start, Total(candidates, 0) + more)
    ensures Counted(start, candidates, 0, more)
  {}

  lemma RoomForNext(r: Response, candidates: seq<Candidate>, n: nat, more: nat)
    requires Counted(r, candidates, n, more) && n < |candidates|
    ensures Short(r, Growth(candidates[n]) + (Total(candidates, n + 1) + more))
  {
    assert Total(candidates, n) + more == Growth(candidates[n]) + (Total(candidates, n + 1) + more);
  }

  lemma NextCounted(r: Response, candidates: seq<Candidate>, n: nat, references: set<string>,
      budget: int, more: nat)
    requires Counted(r, candidates, n, more) && n < |candidates| && Considered(r, candidates[n], references, budget).Ok?
    ensures Counted(Considered(r, candidates[n], references, budget).value, candidates, n + 1, more)
  {
    RoomForNext(r, candidates, n, more);
    CandidateIsJustified(r, candidates[n], references, budget, Total(candidates, n + 1) + more);
    MovedIsCounted(r, Considered(r, candidates[n], references, budget).value, candidates, n,
        MeasuredSize(With(r, candidates[n])) <= budget, more);
  }

  /** Candidates shown and left out make up all of them, and so do trace entries kept and given up;
      the induction is that of `StepsKeep`. */
  lemma {:induction false} CountsAddUp(start: Response, candidates: seq<Candidate>, references: set<string>,
      budget: int, more: nat)
    requires Fresh(start) && Short(start, Total(candidates, 0) + more)
    requires AllConsidered(start, candidates, references, budget).Ok?
    ensures Counted(AllConsidered(start, candidates, references, budget).value, candidates, |candidates|, more)
  {
    var holds := (r: Response, n: nat) => Counted(r, candidates, n, more);
    StartIsCounted(start, candidates, more);
    var step := Considering(references, budget);
    forall r: Response, n: nat | n < |candidates| && holds(r, n) && step(r, candidates[n]).Ok?
      ensures holds(step(r, candidates[n]).value, n + 1)
    {
      NextCounted(r, candidates, n, references, budget, more);
    }
    assert candidates[..|candidates|] == candidates;
    StepsKeep(start, candidates, step, holds, |candidates|);
  }

  ghost predicate ReferencesShown(r: Response, candidates: seq<Candidate>, n: nat, references: set<string>) {
    n <= |candidates| && forall i ::
        0 <= i < n && candidates[i].id in references ==> Entry(candidates[i]) in Shown(r.tasks, candidates[i].kind)
  }

  lemma NextShown(r: Response, candidates: seq<Candidate>, n: nat, references: set<string>,
      budget: int)
    requires ReferencesShown(r, candidates, n, references) && n < |candidates|
        && Considered(r, candidates[n], references, budget).Ok?
    ensures ReferencesShown(Considered(r, candidates[n], references, budget).value, candidates, n + 1, references)
  {
    ConsideredShows(r, candidates[n], references, budget);
  }

  /** Every candidate the request refers to by name is shown. */
  lemma ReferencesAreShown(start: Response, candidates: seq<Candidate>, references: set<string>,
      budget: int)
    requires AllConsidered(start, candidates, references, budget).Ok?
    ensures ReferencesShown(AllConsidered(start, candidates, references, budget).value, candidates, |candidates|,
        references)
  {
    var holds := (r: Response, n: nat) => ReferencesShown(r, candidates, n, references);
    var step := Considering(references, budget);
    forall r: Response, n: nat | n < |candidates| && holds(r, n) && step(r, candidates[n]).Ok?
      ensures holds(step(r, candidates[n]).value, n + 1)
    {
      NextShown(r, candidates, n, references, budget);
    }
    assert candidates[..|candidates|] == candidates;
    StepsKeep(start, candidates, step, holds, |candidates|);
  }

  /** What was trimmed last: the response with one entry more does not fit. */
  ghost predicate GivenUp(r: Response, longer: Response, t: Response, budget: int) {
    && |t.trace| < |r.trace| && longer.trace == r.trace[..|t.trace| + 1] && t == Popped(Measured(longer))
    && SelfMeasured(longer, MeasuredSize(longer)) && MeasuredSize(longer) > budget
  }

  /** What a trimmed response keeps, and that it lost only trace entries that did not fit. */
  ghost predicate MinimallyTrimmed(r: Response, t: Response, budget: int) {
    && Short(t, |t.trace|) && t.tasks == r.tasks && t.omitted == r.omitted && t.head == r.head
    && |t.trace| + t.traceOmitted == |r.trace| + r.traceOmitted
    && |t.trace| <= |r.trace| && t.trace == r.trace[..|t.trace|]
    && (MeasuredSize(t) > budget ==> t.trace == []) && (|t.trace| == |r.trace| ==> t == r)
    && (|t.trace| < |r.trace| ==> exists longer: Response :: GivenUp(r, longer, t, budget))
  }

  lemma OneMoreGivenUp(r: Response, next: Response, t: Response, budget: int)
    requires r.trace != [] && next == Popped(Measured(r)) && SelfMeasured(r, MeasuredSize(r))
    requires MeasuredSize(r) > budget && MinimallyTrimmed(next, t, budget)
    ensures exists longer: Response :: GivenUp(r, longer, t, budget)
  {
    if |t.trace| < |next.trace| {
      var longer: Response :| GivenUp(next, longer, t, budget);
      assert next.trace[..|t.trace| + 1] == r.trace[..|t.trace| + 1];
      assert GivenUp(r, longer, t, budget);
    } else {
      assert r.trace == r.trace[..|t.trace| + 1];
      assert GivenUp(r, r, t, budget);
    }
  }

  /** Trimming takes trace entries from the end, one at a time and each only while the response with it
      does not fit; it ends over the budget only when none is left. */
  lemma {:induction false} TrimmingIsMinimal(r: Response, budget: int)
    requires Short(r, |r.trace|)
    ensures MinimallyTrimmed(r, Trimmed(r, budget), budget)
    decreases |r.trace|
  {
    if MeasuredSize(r) > budget && r.trace != [] {
      var next := Popped(Measured(r));
      MeasuredIsShort(r, |r.trace|);
      PoppedRest(Measured(r));
      ShrinksShort(Measured(r), next, |r.trace|, |next.trace|);
      TrimmingIsMinimal(next, budget);
      OneMoreGivenUp(r, next, Trimmed(next, budget), budget);
      assert next.trace[..|Trimmed(next, budget).trace|] == r.trace[..|Trimmed(next, budget).trace|];
    }
  }

  /** Hashing a measured response and recording its length once more leave the hashed document as it
      was, so the evaluator's hash check accepts the result. */
  lemma SealedIsHashed(r: Response, hash: Json -> string)
    requires Digits(r.includedBytes) <= DIGITS && (forall j :: TextLength(hash(j)) == HASH_LENGTH)
    ensures
      var sealed := Sealed(Measured(r), hash);
      && sealed == Measured(r).(contextHash := sealed.contextHash)
      && sealed.contextHash == Some(hash(Body(sealed)))
      && sealed.includedBytes == MeasuredSize(r) == Length(Document(sealed, hash(Body(sealed))))
  {
    SettledIsNearest(r);
    var measured := Measured(r);
    var hashed := measured.(contextHash := Some(hash(Body(measured))));
    DocumentLength(hashed, hash(Body(measured)));
  }

  /** What trimming and sealing make of a response that counts and shows its candidates. */
  lemma FinishedResponse(considered: Response, budget: int, hash: Json -> string)
    requires Short(considered, |considered.trace|) && (forall j :: TextLength(hash(j)) == HASH_LENGTH)
    requires Finished(considered, budget, hash).Ok?
    ensures
      var r := Finished(considered, budget, hash).value;
      && r.contextHash == Some(hash(Body(r))) && r.includedBytes == Length(Document(r, hash(Body(r)))) <= budget
      && r.tasks == considered.tasks && r.omitted == considered.omitted
      && |r.trace| + r.traceOmitted == |considered.trace| + considered.traceOmitted
  {
    TrimmingIsMinimal(considered, budget);
    SealedIsHashed(Trimmed(considered, budget), hash);
  }

  lemma ConsideredFits(considered: Response, candidates: seq<Candidate>, more: nat)
    requires Counted(considered, candidates, |candidates|, more) && more >= |candidates|
    ensures Short(considered, |considered.trace|)
  {
    ShrinksShort(considered, considered, more, |considered.trace|);
  }

  lemma EachIsShown(tasks: Tasks, considered: Response, candidates: seq<Candidate>, references: set<string>)
    requires ReferencesShown(considered, candidates, |candidates|, references) && tasks == considered.tasks
    ensures forall c :: c in candidates && c.id in references ==> Entry(c) in Shown(tasks, c.kind)
  {
    forall c | c in candidates && c.id in references
      ensures Entry(c) in Shown(tasks, c.kind)
    {
      var i :| 0 <= i < |candidates| && candidates[i] == c;
    }
  }

  /** A successful response: within the budget, accepted by the evaluator's hash check, showing
      every referenced candidate, with counts that add up. */
  lemma RoutedResponse(start: Response, candidates: seq<Candidate>, references: set<string>,
      budget: int, hash: Json -> string)
    requires Fresh(start) && Short(start, Total(candidates, 0) + Total(candidates, 0))
    requires forall j :: TextLength(hash(j)) == HASH_LENGTH
    requires Routed(start, candidates, references, budget, hash).Ok?
    ensures
      var r := Routed(start, candidates, references, budget, hash).value;
      && r.contextHash == Some(hash(Body(r))) && r.includedBytes == Length(Document(r, hash(Body(r)))) <= budget
      && ShownCount(r.tasks) + r.omitted == |candidates| && |r.trace| + r.traceOmitted == |candidates|
      && forall c :: c in candidates && c.id in references ==> Entry(c) in Shown(r.tasks, c.kind)
  {
    CountsAddUp(start, candidates, references, budget, Total(candidates, 0));
    ReferencesAreShown(start, candidates, references, budget);
    var considered := AllConsidered(start, candidates, references, budget).value;
    TotalAtLeast(candidates, 0);
    ConsideredFits(considered, candidates, Total(candidates, 0));
    FinishedResponse(considered, budget, hash);
    EachIsShown(Finished(considered, budget, hash).value.tasks, considered, candidates, references);
  }

  lemma {:induction false} TotalAtLeast(candidates: seq<Candidate>, n: nat)
    requires n <= |candidates|
    ensures Total(candidates, n) >= |candidates| - n
    decreases |candidates| - n
  {
    if n < |candidates| {
      TotalAtLeast(candidates, n + 1);
    }
  }
}
