/** Advisory rebase hints, and their agreement with the kernel's own precondition checks. */
module Rebase {
  import opened Wrappers
  import opened Domain
  import opened Preconditions

  datatype Path = ReadPath(read: nat) | GuardPath(guard: nat) | DigestPath(operation: nat) | EpochPath(operation: nat)

  datatype Value =
    | Absent | Version(version: nat) | Episode(episode: nat)
    | OfClaim(claimStatus: ClaimStatus) | OfConflict(conflictStatus: ConflictStatus)
        | OfDecision(decisionStatus: DecisionStatus)
    | OfQuestion(questionStatus: QuestionStatus) | OfWorkItem(workStatus: WorkStatus)
    | Digest(digest: MemberDigest) | Members(members: ActiveSetDigest)

  /** What a precondition is about. */
  datatype Subject = Aggregate(kind: RecordType, id: Id) | Collection(family: FamilyKey)

  datatype Precondition = Precondition(path: Path, expected: Value, actual: Value, subject: Subject, reason: Code)

  datatype Hint = Hint(failed: Precondition, replacements: seq<(Path, Value)>)

  // ------------------------------------------------------------- observed values

  function ActualVersion(t: Tables, kind: RecordType, id: Id): Value {
    if Exists(t, kind, id) then Version(VersionOf(t, kind, id)) else Absent
  }

  function ActualMembers(registry: Registry, t: Tables, family: FamilyKey): Value {
    Members(ActiveSetDigest(ActiveFamily(registry, t.claims, family)))
  }

  function OfRead(registry: Registry, t: Tables, i: nat, read: Read): Option<Precondition> {
    match read
    case CollectionRead(family, expected) =>
      Some(Precondition(ReadPath(i), Members(expected), ActualMembers(registry, t, family), Collection(family),
          ActiveSetDigestMismatch))
    case AggregateRead(kind, id, version) =>
      if kind == SourceRevision then None
      else Some(Precondition(ReadPath(i), Version(version), ActualVersion(t, kind, id), Aggregate(kind, id),
          VersionMismatch(kind)))
  }

  function OfGuard(registry: Registry, t: Tables, i: nat, guard: Guard): Option<Precondition> {
    match guard
    case ActiveSetDigestEq(family, expected) =>
      Some(Precondition(GuardPath(i), Members(expected), ActualMembers(registry, t, family), Collection(family),
          ActiveSetDigestMismatch))
    case ClaimStatusEq(id, status) =>
      Some(Precondition(GuardPath(i), OfClaim(status), if id in t.claims then OfClaim(t.claims[id].status) else Absent,
        Aggregate(ClaimRecord, id), ClaimStatusMismatch))
    case ClaimVersionEq(id, version) =>
      Some(Precondition(GuardPath(i), Version(version), ActualVersion(t, ClaimRecord, id), Aggregate(ClaimRecord, id),
          ClaimVersionMismatch))
    case ConflictStatusEq(id, status) =>
      Some(Precondition(GuardPath(i), OfConflict(status), if id in t.conflicts then OfConflict(t.conflicts[id].status)
          else Absent,
        Aggregate(ConflictRecord, id), ConflictStatusMismatch))
    case ConflictMemberDigestEq(id, digest) =>
      Some(Precondition(GuardPath(i), Digest(digest), if id in t.conflicts then Digest(t.conflicts[id].memberDigest)
          else Absent,
        Aggregate(ConflictRecord, id), ConflictMemberDigestMismatch))
    case DecisionStatusEq(id, status) =>
      Some(Precondition(GuardPath(i), OfDecision(status), if id in t.decisions then OfDecision(t.decisions[id].status)
          else Absent,
        Aggregate(DecisionRecord, id), DecisionStatusMismatch))
    case DecisionVersionEq(id, version) =>
      Some(Precondition(GuardPath(i), Version(version), ActualVersion(t, DecisionRecord, id),
          Aggregate(DecisionRecord, id), DecisionVersionMismatch))
    case QuestionStatusEq(id, status) =>
      Some(Precondition(GuardPath(i), OfQuestion(status), if id in t.questions then OfQuestion(t.questions[id].status)
          else Absent,
        Aggregate(QuestionRecord, id), QuestionStatusMismatch))
    case QuestionVersionEq(id, version) =>
      Some(Precondition(GuardPath(i), Version(version), ActualVersion(t, QuestionRecord, id),
          Aggregate(QuestionRecord, id), QuestionVersionMismatch))
    case WorkItemStatusEq(id, status) =>
      Some(Precondition(GuardPath(i), OfWorkItem(status), if id in t.workItems then OfWorkItem(t.workItems[id].status)
          else Absent,
        Aggregate(WorkItemRecord, id), WorkItemStatusMismatch))
    case WorkItemVersionEq(id, version) =>
      Some(Precondition(GuardPath(i), Version(version), ActualVersion(t, WorkItemRecord, id),
          Aggregate(WorkItemRecord, id), WorkItemVersionMismatch))
    case SourceHashEq(_, _) => None
    case NoActiveClaim(_) => None
  }

  function OfOperation(t: Tables, i: nat, op: Operation): seq<Precondition> {
    if !op.ResolveConflict? then []
    else
      var c := op.conflictId;
      [Precondition(DigestPath(i), Digest(op.expectedMemberDigest), if c in t.conflicts
          then Digest(t.conflicts[c].memberDigest) else Absent,
         Aggregate(ConflictRecord, c), ConflictMemberDigestMismatch),
       Precondition(EpochPath(i), Episode(op.resolution.resolutionEpoch), if c in t.conflicts
           then Episode(t.conflicts[c].episode) else Absent,
         Aggregate(ConflictRecord, c), ConflictResolutionEpochMismatch)]
  }

  function Listed(item: Option<Precondition>): seq<Precondition> {
    if item.Some? then [item.value] else []
  }

  function OfReads(registry: Registry, t: Tables, readSet: seq<Read>): seq<Precondition>
    decreases |readSet|
  {
    if readSet == [] then []
    else OfReads(registry, t,
        readSet[..|readSet| - 1]) + Listed(OfRead(registry, t, |readSet| - 1, readSet[|readSet| - 1]))
  }

  function OfGuards(registry: Registry, t: Tables, guards: seq<Guard>): seq<Precondition>
    decreases |guards|
  {
    if guards == [] then []
    else OfGuards(registry, t,
        guards[..|guards| - 1]) + Listed(OfGuard(registry, t, |guards| - 1, guards[|guards| - 1]))
  }

  function OfOperations(t: Tables, ops: seq<Operation>): seq<Precondition>
    decreases |ops|
  {
    if ops == [] then [] else OfOperations(t, ops[..|ops| - 1]) + OfOperation(t, |ops| - 1, ops[|ops| - 1])
  }

  function ProposalPreconditions(registry: Registry, t: Tables, p: Proposal): seq<Precondition> {
    OfReads(registry, t, p.readSet) + OfGuards(registry, t, p.guards) + OfOperations(t, p.operations)
  }

  /** The first precondition with this reason whose expected value is not the actual one. */
  function FirstFailed(items: seq<Precondition>, reason: Code): Option<Precondition>
    decreases |items|
  {
    if items == [] then None
    else if items[0].reason == reason && items[0].expected != items[0].actual then Some(items[0])
    else FirstFailed(items[1..], reason)
  }

  predicate Replaced(replacements: seq<(Path, Value)>, path: Path) {
    exists k :: 0 <= k < |replacements| && replacements[k].0 == path
  }

  /** The actual value of every precondition on the subject, each path once. */
  function ReplacementsFor(items: seq<Precondition>, subject: Subject): seq<(Path, Value)>
    decreases |items|
  {
    if items == [] then []
    else
      var before := ReplacementsFor(items[..|items| - 1], subject);
      var last := items[|items| - 1];
      if last.subject == subject && !Replaced(before, last.path) then before + [(last.path, last.actual)] else before
  }

  /** The hint for a proposal that was rejected as a transaction conflict with this reason. */
  function BuildHint(registry: Registry, t: Tables, p: Proposal, reason: Code): Option<Hint> {
    var items := ProposalPreconditions(registry, t, p);
    match FirstFailed(items, reason)
    case None => None
    case Some(failed) => Some(Hint(failed, ReplacementsFor(items, failed.subject)))
  }

  // -------------------------------------------- the kernel's own first failure

  datatype FailedCheck = FailedCheck(path: Path, precondition: Option<Precondition>, code: Code)

  function FirstFailedRead(registry: Registry, t: Tables, readSet: seq<Read>): (failed: Option<FailedCheck>)
    ensures failed.Some? <==> ReadsError(registry, t, readSet).Some?
    ensures failed.Some? ==> ReadsError(registry, t, readSet) == Some(failed.value.code)
    decreases |readSet|
  {
    if readSet == [] then None
    else
      var n := |readSet| - 1;
      var before := FirstFailedRead(registry, t, readSet[..n]);
      if before.Some? then before
      else
        var error := ReadError(registry, t, readSet[n]);
        if error.Some? then Some(FailedCheck(ReadPath(n), OfRead(registry, t, n, readSet[n]), error.value)) else None
  }

  function FirstFailedGuard(registry: Registry, t: Tables, guards: seq<Guard>): (failed: Option<FailedCheck>)
    ensures failed.Some? <==> GuardsError(registry, t, guards).Some?
    ensures failed.Some? ==> GuardsError(registry, t, guards) == Some(failed.value.code)
    decreases |guards|
  {
    if guards == [] then None
    else
      var n := |guards| - 1;
      var before := FirstFailedGuard(registry, t, guards[..n]);
      if before.Some? then before
      else
        var error := GuardError(registry, t, guards[n]);
        if error.Some? then Some(FailedCheck(GuardPath(n), OfGuard(registry, t, n, guards[n]), error.value)) else None
  }

  /** The check at which the kernel stopped. */
  function KernelFailure(registry: Registry, t: Tables, p: Proposal): (failed: Option<FailedCheck>)
    ensures failed.Some? <==> ReadsAndGuardsError(registry, t, p).Some?
    ensures failed.Some? ==> ReadsAndGuardsError(registry, t, p) == Some(failed.value.code)
  {
    var stale := FirstFailedRead(registry, t, p.readSet);
    if stale.Some? then stale else FirstFailedGuard(registry, t, p.guards)
  }

  // --------------------------------------------------------------------- agreement

  lemma {:induction false} FirstFailedAppend(first: seq<Precondition>, second: seq<Precondition>, reason: Code)
    ensures FirstFailed(first + second, reason) ==
            if FirstFailed(first, reason).Some? then FirstFailed(first, reason) else FirstFailed(second, reason)
    decreases |first|
  {
    if first == [] {
      assert first + second == second;
    } else {
      assert (first + second)[1..] == first[1..] + second;
      FirstFailedAppend(first[1..], second, reason);
    }
  }

  /** The codes of checks that no precondition records. */
  predicate Unhintable(reason: Code) {
    reason == SourceVersionMismatch || reason == SourceHashMismatch || reason == ActiveClaimExists
  }

  predicate Fails(item: Option<Precondition>, reason: Code) {
    item.Some? && item.value.reason == reason && item.value.expected != item.value.actual
  }

  /** A recorded precondition fails exactly as the kernel's check does, with the same code; a check
      without one fails with a code that no precondition records. */
  predicate Mirrors(item: Option<Precondition>, error: Option<Code>) {
    match item
    case Some(p) => error == (if p.expected != p.actual then Some(p.reason) else None) && !Unhintable(p.reason)
    case None => error.Some? ==> Unhintable(error.value)
  }

  lemma ReadAgrees(registry: Registry, t: Tables, i: nat, read: Read)
    ensures Mirrors(OfRead(registry, t, i, read), ReadError(registry, t, read))
  {}

  lemma GuardAgrees(registry: Registry, t: Tables, i: nat, guard: Guard)
    ensures Mirrors(OfGuard(registry, t, i, guard), GuardError(registry, t, guard))
  {}

  /** The first mismatch with a reason is the failed check when the kernel gives that reason; a
      check that names no precondition, or a reason that has none, yields no mismatch. */
  predicate Agrees(failed: Option<FailedCheck>, hinted: Option<Precondition>, reason: Code) {
    && (failed.None? ==> hinted.None?)
    && (failed.Some? && failed.value.code == reason ==> hinted == failed.value.precondition)
    && (failed.Some? && failed.value.precondition.None? ==> Unhintable(failed.value.code))
    && (Unhintable(reason) ==> hinted.None?)
  }

  function NextFailure(before: Option<FailedCheck>, path: Path, item: Option<Precondition>,
      error: Option<Code>): Option<FailedCheck> {
    if before.Some? then before else if error.Some? then Some(FailedCheck(path, item, error.value)) else None
  }

  lemma NextAgrees(before: Option<FailedCheck>, items: seq<Precondition>, path: Path, item: Option<Precondition>,
      error: Option<Code>, reason: Code)
    requires Agrees(before, FirstFailed(items, reason), reason)
    requires Mirrors(item, error)
    ensures Agrees(NextFailure(before, path, item, error), FirstFailed(items + Listed(item), reason), reason)
  {
    FirstFailedAppend(items, Listed(item), reason);
  }

  lemma {:induction false} ReadsAgree(registry: Registry, t: Tables, readSet: seq<Read>, reason: Code)
    ensures Agrees(FirstFailedRead(registry, t, readSet), FirstFailed(OfReads(registry, t, readSet), reason), reason)
    decreases |readSet|
  {
    if readSet != [] {
      var n := |readSet| - 1;
      ReadsAgree(registry, t, readSet[..n], reason);
      ReadAgrees(registry, t, n, readSet[n]);
      NextAgrees(FirstFailedRead(registry, t, readSet[..n]), OfReads(registry, t, readSet[..n]), ReadPath(n),
        OfRead(registry, t, n, readSet[n]), ReadError(registry, t, readSet[n]), reason);
    }
  }

  lemma {:induction false} GuardsAgree(registry: Registry, t: Tables, guards: seq<Guard>, reason: Code)
    ensures Agrees(FirstFailedGuard(registry, t, guards), FirstFailed(OfGuards(registry, t, guards), reason), reason)
    decreases |guards|
  {
    if guards != [] {
      var n := |guards| - 1;
      GuardsAgree(registry, t, guards[..n], reason);
      GuardAgrees(registry, t, n, guards[n]);
      NextAgrees(FirstFailedGuard(registry, t, guards[..n]), OfGuards(registry, t, guards[..n]), GuardPath(n),
        OfGuard(registry, t, n, guards[n]), GuardError(registry, t, guards[n]), reason);
    }
  }

  lemma OperationUnhintable(t: Tables, i: nat, op: Operation, reason: Code)
    requires Unhintable(reason)
    ensures FirstFailed(OfOperation(t, i, op), reason).None?
  {
    if op.ResolveConflict? {
      var items := OfOperation(t, i, op);
      assert items[1..] == [items[1]];
      assert FirstFailed(items[1..][1..], reason).None?;
      assert FirstFailed(items[1..], reason).None?;
    }
  }

  lemma {:induction false} OperationsUnhintable(t: Tables, ops: seq<Operation>, reason: Code)
    requires Unhintable(reason)
    ensures FirstFailed(OfOperations(t, ops), reason).None?
    decreases |ops|
  {
    if ops != [] {
      var n := |ops| - 1;
      OperationsUnhintable(t, ops[..n], reason);
      OperationUnhintable(t, n, ops[n], reason);
      FirstFailedAppend(OfOperations(t, ops[..n]), OfOperation(t, n, ops[n]), reason);
    }
  }

  /** When a read or guard is rejected, the hint names exactly the precondition at which the
      kernel stopped; there is no hint exactly when that check is on a source revision's
      registration or hash, or on the absence of active claims. */
  lemma HintNamesKernelFailure(registry: Registry, t: Tables, p: Proposal)
    requires ReadsAndGuardsError(registry, t, p).Some?
    ensures
      var failed := KernelFailure(registry, t, p).value;
      var hint := BuildHint(registry, t, p, failed.code);
      && (hint.Some? <==> !Unhintable(failed.code))
      && (hint.Some? ==>
            && failed.precondition == Some(hint.value.failed) && hint.value.failed.path == failed.path
            && hint.value.failed.expected != hint.value.failed.actual)
  {
    var failed := KernelFailure(registry, t, p).value;
    var reason := failed.code;
    var fromReads, fromGuards, fromOps := OfReads(registry, t, p.readSet), OfGuards(registry, t, p.guards),
        OfOperations(t, p.operations);
    ReadsAgree(registry, t, p.readSet, reason);
    GuardsAgree(registry, t, p.guards, reason);
    FirstFailedAppend(fromReads, fromGuards, reason);
    FirstFailedAppend(fromReads + fromGuards, fromOps, reason);
    if Unhintable(reason) {
      OperationsUnhintable(t, p.operations, reason);
    }
    FailedPath(registry, t, p);
    FirstFailedDiffers(ProposalPreconditions(registry, t, p), reason);
  }

  lemma {:induction false} FirstFailedDiffers(items: seq<Precondition>, reason: Code)
    ensures
      var failed := FirstFailed(items, reason);
      failed.Some? ==> failed.value.expected != failed.value.actual && failed.value.reason == reason
    decreases |items|
  {
    if items != [] {
      FirstFailedDiffers(items[1..], reason);
    }
  }

  lemma FailedPath(registry: Registry, t: Tables, p: Proposal)
    requires ReadsAndGuardsError(registry, t, p).Some?
    ensures
      var failed := KernelFailure(registry, t, p).value;
      failed.precondition.Some? ==> failed.precondition.value.path == failed.path
  {
    ReadPathOfFailure(registry, t, p.readSet);
    GuardPathOfFailure(registry, t, p.guards);
  }

  lemma {:induction false} ReadPathOfFailure(registry: Registry, t: Tables, readSet: seq<Read>)
    ensures
      var failed := FirstFailedRead(registry, t, readSet);
      failed.Some? && failed.value.precondition.Some? ==> failed.value.precondition.value.path == failed.value.path
    decreases |readSet|
  {
    if readSet != [] {
      ReadPathOfFailure(registry, t, readSet[..|readSet| - 1]);
    }
  }

  lemma {:induction false} GuardPathOfFailure(registry: Registry, t: Tables, guards: seq<Guard>)
    ensures
      var failed := FirstFailedGuard(registry, t, guards);
      failed.Some? && failed.value.precondition.Some? ==> failed.value.precondition.value.path == failed.value.path
    decreases |guards|
  {
    if guards != [] {
      GuardPathOfFailure(registry, t, guards[..|guards| - 1]);
    }
  }

  // ------------------------------------------------------------------ substitution

  function WithRead(read: Read, value: Value): Read {
    if read.CollectionRead? && value.Members? then read.(expectedMembers := value.members)
    else if read.AggregateRead? && value.Version? then read.(expectedVersion := value.version)
    else read
  }

  function WithGuard(guard: Guard, value: Value): Guard {
    match (guard, value)
    case (ActiveSetDigestEq(family, _), Members(members)) => ActiveSetDigestEq(family, members)
    case (ClaimStatusEq(id, _), OfClaim(status)) => ClaimStatusEq(id, status)
    case (ClaimVersionEq(id, _), Version(version)) => ClaimVersionEq(id, version)
    case (ConflictStatusEq(id, _), OfConflict(status)) => ConflictStatusEq(id, status)
    case (ConflictMemberDigestEq(id, _), Digest(digest)) => ConflictMemberDigestEq(id, digest)
    case (DecisionStatusEq(id, _), OfDecision(status)) => DecisionStatusEq(id, status)
    case (DecisionVersionEq(id, _), Version(version)) => DecisionVersionEq(id, version)
    case (QuestionStatusEq(id, _), OfQuestion(status)) => QuestionStatusEq(id, status)
    case (QuestionVersionEq(id, _), Version(version)) => QuestionVersionEq(id, version)
    case (WorkItemStatusEq(id, _), OfWorkItem(status)) => WorkItemStatusEq(id, status)
    case (WorkItemVersionEq(id, _), Version(version)) => WorkItemVersionEq(id, version)
    case _ => guard
  }

  predicate Present(t: Tables, subject: Subject) {
    subject.Collection? || Exists(t, subject.kind, subject.id)
  }

  ghost predicate UniquePaths(items: seq<Precondition>) {
    forall i, j :: 0 <= i < j < |items| ==> items[i].path != items[j].path
  }

  lemma {:induction false} ReplacedComesFrom(items: seq<Precondition>, subject: Subject, path: Path)
    requires Replaced(ReplacementsFor(items, subject), path)
    ensures exists i :: 0 <= i < |items| && items[i].path == path
    decreases |items|
  {
    var n := |items| - 1;
    if items[n].path != path {
      var all, before := ReplacementsFor(items, subject), ReplacementsFor(items[..n], subject);
      var k :| 0 <= k < |all| && all[k].0 == path;
      assert before[k].0 == path;
      ReplacedComesFrom(items[..n], subject, path);
    }
  }

  lemma {:induction false} ReplacementListed(items: seq<Precondition>, i: nat, subject: Subject)
    requires UniquePaths(items) && i < |items| && items[i].subject == subject
    ensures (items[i].path, items[i].actual) in ReplacementsFor(items, subject)
    decreases |items|
  {
    var n := |items| - 1;
    if i < n {
      ReplacementListed(items[..n], i, subject);
    } else if Replaced(ReplacementsFor(items[..n], subject), items[n].path) {
      ReplacedComesFrom(items[..n], subject, items[n].path);
    }
  }

  ghost predicate ReadPathsBelow(items: seq<Precondition>, n: nat) {
    UniquePaths(items) && forall i :: 0 <= i < |items| ==> items[i].path.ReadPath? && items[i].path.read < n
  }

  ghost predicate GuardPathsBelow(items: seq<Precondition>, n: nat) {
    UniquePaths(items) && forall i :: 0 <= i < |items| ==> items[i].path.GuardPath? && items[i].path.guard < n
  }

  lemma {:induction false} ReadPaths(registry: Registry, t: Tables, readSet: seq<Read>)
    ensures ReadPathsBelow(OfReads(registry, t, readSet), |readSet|)
    decreases |readSet|
  {
    if readSet != [] {
      var n := |readSet| - 1;
      ReadPaths(registry, t, readSet[..n]);
    }
  }

  lemma {:induction false} GuardPaths(registry: Registry, t: Tables, guards: seq<Guard>)
    ensures GuardPathsBelow(OfGuards(registry, t, guards), |guards|)
    decreases |guards|
  {
    if guards != [] {
      var n := |guards| - 1;
      GuardPaths(registry, t, guards[..n]);
    }
  }

  predicate OperationPathBelow(path: Path, n: nat) {
    (path.DigestPath? || path.EpochPath?) && path.operation < n
  }

  lemma {:induction false} OperationPaths(t: Tables, ops: seq<Operation>)
    ensures
      var items := OfOperations(t, ops);
      UniquePaths(items) && forall i :: 0 <= i < |items| ==> OperationPathBelow(items[i].path, |ops|)
    decreases |ops|
  {
    if ops != [] {
      OperationPaths(t, ops[..|ops| - 1]);
    }
  }

  lemma AllPathsUnique(registry: Registry, t: Tables, p: Proposal)
    ensures UniquePaths(ProposalPreconditions(registry, t, p))
  {
    ReadPaths(registry, t, p.readSet);
    GuardPaths(registry, t, p.guards);
    OperationPaths(t, p.operations);
  }

  lemma {:induction false} ReadListed(registry: Registry, t: Tables, readSet: seq<Read>, i: nat)
    requires i < |readSet| && OfRead(registry, t, i, readSet[i]).Some?
    ensures OfRead(registry, t, i, readSet[i]).value in OfReads(registry, t, readSet)
    decreases |readSet|
  {
    if i < |readSet| - 1 {
      ReadListed(registry, t, readSet[..|readSet| - 1], i);
    }
  }

  lemma {:induction false} GuardListed(registry: Registry, t: Tables, guards: seq<Guard>, i: nat)
    requires i < |guards| && OfGuard(registry, t, i, guards[i]).Some?
    ensures OfGuard(registry, t, i, guards[i]).value in OfGuards(registry, t, guards)
    decreases |guards|
  {
    if i < |guards| - 1 {
      GuardListed(registry, t, guards[..|guards| - 1], i);
    }
  }

  lemma ItemReplaced(items: seq<Precondition>, item: Precondition, subject: Subject)
    requires UniquePaths(items) && item in items && item.subject == subject
    ensures (item.path, item.actual) in ReplacementsFor(items, subject)
  {
    var i :| 0 <= i < |items| && items[i] == item;
    ReplacementListed(items, i, subject);
  }

  lemma ActualGuardPasses(registry: Registry, t: Tables, i: nat, guard: Guard)
    requires OfGuard(registry, t, i, guard).Some?
    ensures
      var item := OfGuard(registry, t, i, guard).value;
      GuardError(registry, t, WithGuard(guard, item.actual)).None? <==> Present(t, item.subject)
  {}

  /** Every read on the hinted subject has a replacement value, and with it the kernel accepts
      the read on the unchanged state exactly when the subject exists. */
  lemma HintedReadPasses(registry: Registry, t: Tables, p: Proposal, reason: Code, i: nat)
    requires BuildHint(registry, t, p, reason).Some? && i < |p.readSet|
    requires OfRead(registry, t, i, p.readSet[i]).Some?
    requires OfRead(registry, t, i, p.readSet[i]).value.subject == BuildHint(registry, t, p,
        reason).value.failed.subject
    ensures
      var hint := BuildHint(registry, t, p, reason).value;
      var item := OfRead(registry, t, i, p.readSet[i]).value;
      && (ReadPath(i), item.actual) in hint.replacements
      && (ReadError(registry, t, WithRead(p.readSet[i], item.actual)).None? <==> Present(t, hint.failed.subject))
  {
    ReadListed(registry, t, p.readSet, i);
    AllPathsUnique(registry, t, p);
    ItemReplaced(ProposalPreconditions(registry, t, p), OfRead(registry, t, i, p.readSet[i]).value,
      BuildHint(registry, t, p, reason).value.failed.subject);
  }

  lemma GuardReplaced(registry: Registry, t: Tables, p: Proposal, i: nat, subject: Subject)
    requires i < |p.guards| && OfGuard(registry, t, i, p.guards[i]).Some?
    requires OfGuard(registry, t, i, p.guards[i]).value.subject == subject
    ensures
      var item := OfGuard(registry, t, i, p.guards[i]).value;
      (item.path, item.actual) in ReplacementsFor(ProposalPreconditions(registry, t, p), subject)
  {
    GuardListed(registry, t, p.guards, i);
    AllPathsUnique(registry, t, p);
    ItemReplaced(ProposalPreconditions(registry, t, p), OfGuard(registry, t, i, p.guards[i]).value, subject);
  }

  lemma HintedGuardPasses(registry: Registry, t: Tables, p: Proposal, reason: Code, i: nat)
    requires BuildHint(registry, t, p, reason).Some? && i < |p.guards|
    requires OfGuard(registry, t, i, p.guards[i]).Some?
    requires OfGuard(registry, t, i, p.guards[i]).value.subject == BuildHint(registry, t, p,
        reason).value.failed.subject
    ensures
      var hint := BuildHint(registry, t, p, reason).value;
      var item := OfGuard(registry, t, i, p.guards[i]).value;
      && (GuardPath(i), item.actual) in hint.replacements
      && (GuardError(registry, t, WithGuard(p.guards[i], item.actual)).None? <==> Present(t, hint.failed.subject))
  {
    GuardReplaced(registry, t, p, i, BuildHint(registry, t, p, reason).value.failed.subject);
    ActualGuardPasses(registry, t, i, p.guards[i]);
  }

  // -------------------------------------------------------------------- the builder

  method CollectReads(registry: Registry, t: Tables, readSet: seq<Read>) returns (items: seq<Precondition>)
    ensures items == OfReads(registry, t, readSet)
  {
    items := [];
    for i := 0 to |readSet|
      invariant items == OfReads(registry, t, readSet[..i])
    {
      assert readSet[..i + 1][..i] == readSet[..i];
      items := items + Listed(OfRead(registry, t, i, readSet[i]));
    }
    assert readSet[..|readSet|] == readSet;
  }

  method CollectGuards(registry: Registry, t: Tables, guards: seq<Guard>) returns (items: seq<Precondition>)
    ensures items == OfGuards(registry, t, guards)
  {
    items := [];
    for i := 0 to |guards|
      invariant items == OfGuards(registry, t, guards[..i])
    {
      assert guards[..i + 1][..i] == guards[..i];
      items := items + Listed(OfGuard(registry, t, i, guards[i]));
    }
    assert guards[..|guards|] == guards;
  }

  method CollectOperations(t: Tables, ops: seq<Operation>) returns (items: seq<Precondition>)
    ensures items == OfOperations(t, ops)
  {
    items := [];
    for i := 0 to |ops|
      invariant items == OfOperations(t, ops[..i])
    {
      assert ops[..i + 1][..i] == ops[..i];
      items := items + OfOperation(t, i, ops[i]);
    }
    assert ops[..|ops|] == ops;
  }

  method FindFailed(items: seq<Precondition>, reason: Code) returns (failed: Option<Precondition>)
    ensures failed == FirstFailed(items, reason)
  {
    for i := 0 to |items|
      invariant FirstFailed(items, reason) == FirstFailed(items[i..], reason)
    {
      assert items[i..][1..] == items[i + 1..];
      if items[i].reason == reason && items[i].expected != items[i].actual {
        return Some(items[i]);
      }
    }
    return None;
  }

  method CollectReplacements(items: seq<Precondition>, subject: Subject) returns (replacements: seq<(Path, Value)>)
    ensures replacements == ReplacementsFor(items, subject)
  {
    replacements := [];
    var seen: set<Path> := {};
    for i := 0 to |items|
      invariant replacements == ReplacementsFor(items[..i], subject)
      invariant forall path :: path in seen <==> Replaced(replacements, path)
    {
      assert items[..i + 1][..i] == items[..i];
      if items[i].subject == subject && items[i].path !in seen {
        ghost var before := replacements;
        replacements := replacements + [(items[i].path, items[i].actual)];
        seen := seen + {items[i].path};
        assert replacements[|before|].0 == items[i].path;
        assert forall k :: 0 <= k < |before| ==> replacements[k] == before[k];
      }
    }
    assert items[..|items|] == items;
  }

  method BuildRebaseHint(registry: Registry, t: Tables, p: Proposal, reason: Code) returns (hint: Option<Hint>)
    ensures hint == BuildHint(registry, t, p, reason)
  {
    var fromReads := CollectReads(registry, t, p.readSet);
    var fromGuards := CollectGuards(registry, t, p.guards);
    var fromOperations := CollectOperations(t, p.operations);
    var items := fromReads + fromGuards + fromOperations;
    var failed := FindFailed(items, reason);
    if failed.None? {
      return None;
    }
    var replacements := CollectReplacements(items, failed.value.subject);
    return Some(Hint(failed.value, replacements));
  }
}
