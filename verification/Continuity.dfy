/** Reducers of decisions, questions and work items as functions on the tables: what one
    operation does to them and the one event it records. */
module Continuity {
  import opened Wrappers
  import opened Domain

  datatype Change = Change(tables: Tables, event: Event)

  function NewDecision(t: Tables, decision: Decision): Option<Failure> {
    if decision.status != DecisionActive || decision.version != 1 || decision.replacedBy.Some?
    then Some(Invalid(InvalidNewDecisionState))
    else if decision.decisionId in t.decisions then Some(Invalid(DuplicateObjectId))
    else None
  }

  function FreshDecisionRow(decision: Decision): DecisionRow {
    DecisionRow(DecisionActive, 1, None, decision)
  }

  function RecordDecision(t: Tables, decision: Decision): Result<Change, Failure> {
    var refused := NewDecision(t, decision);
    if refused.Some? then Err(refused.value)
    else Ok(Change(
      t.(decisions := t.decisions[decision.decisionId := FreshDecisionRow(decision)]),
      DecisionRecorded(decision)))
  }

  function ReplacedRow(row: DecisionRow, disposition: DecisionStatus, replacement: Id): DecisionRow {
    DecisionRow(disposition, row.version + 1, Some(replacement),
      row.document.(status := disposition, version := row.version + 1, replacedBy := Some(replacement)))
  }

  function SupersedeDecision(t: Tables, target: Id, disposition: DecisionStatus, replacement: Decision,
      rationale: string):
    Result<Change, Failure>
  {
    if disposition != DecisionSuperseded && disposition != DecisionReversed
        then Err(Invalid(InvalidDecisionDisposition))
    else if target !in t.decisions || t.decisions[target].status != DecisionActive
        then Err(Stale(DecisionStatusMismatch))
    else
      var refused := NewDecision(t, replacement);
      if refused.Some? then Err(refused.value)
      else
        var row := t.decisions[target];
        Ok(Change(
          t.(decisions := t.decisions[replacement.decisionId := FreshDecisionRow(replacement)]
                                     [target := ReplacedRow(row, disposition, replacement.decisionId)]),
          DecisionReplaced(target, disposition, replacement, rationale, row.version, row.version + 1)))
  }

  function OpenQuestion(t: Tables, question: Question): Result<Change, Failure> {
    if question.status != QuestionOpen || question.version != 1 || question.answer.Some? || question.drop.Some?
    then Err(Invalid(InvalidNewQuestionState))
    else if question.questionId in t.questions then Err(Invalid(DuplicateObjectId))
    else Ok(Change(
      t.(questions := t.questions[question.questionId := QuestionRow(QuestionOpen, 1, None, None, question)]),
      QuestionOpened(question)))
  }

  predicate IsOpenQuestion(t: Tables, target: Id) {
    target in t.questions && t.questions[target].status == QuestionOpen
  }

  function AnswerQuestion(t: Tables, target: Id, answer: Answer): Result<Change, Failure> {
    if !IsOpenQuestion(t, target) then Err(Stale(QuestionStatusMismatch))
    else
      var row := t.questions[target];
      var document := row.document.(status := QuestionAnswered, version := row.version + 1, answer := Some(answer),
          drop := None);
      Ok(Change(
        t.(questions := t.questions[target :=
            QuestionRow(QuestionAnswered, row.version + 1, Some(answer), None, document)]),
        QuestionAnsweredEvent(target, answer, row.version, row.version + 1)))
  }

  function DropQuestion(t: Tables, target: Id, drop: Drop): Result<Change, Failure> {
    if !IsOpenQuestion(t, target) then Err(Stale(QuestionStatusMismatch))
    else
      var row := t.questions[target];
      var document := row.document.(status := QuestionDropped, version := row.version + 1, answer := None,
          drop := Some(drop));
      Ok(Change(
        t.(questions := t.questions[target :=
            QuestionRow(QuestionDropped, row.version + 1, None, Some(drop), document)]),
        QuestionDroppedEvent(target, drop, row.version, row.version + 1)))
  }

  function CreateWorkItem(t: Tables, item: WorkItem): Result<Change, Failure> {
    if item.status != Todo || item.version != 1 || item.blocker.Some? then Err(Invalid(InvalidNewWorkItemState))
    else if item.workItemId in t.workItems then Err(Invalid(DuplicateObjectId))
    else Ok(Change(
      t.(workItems := t.workItems[item.workItemId := WorkItemRow(Todo, 1, None, item.updatedAt, item)]),
      WorkItemCreated(item)))
  }

  /** No transition edges: any known status may follow any other. */
  function UpdateWorkItem(t: Tables, target: Id, status: WorkStatus, blocker: Option<string>,
                          rationale: string, updatedBy: Actor, updatedAt: Time): Result<Change, Failure>
  {
    if status.WorkOther? then Err(Invalid(InvalidWorkItemStatus))
    else if (status == Blocked) != (blocker.Some? && blocker.value != "") then Err(Invalid(InvalidWorkItemBlocker))
    else if target !in t.workItems then Err(Stale(WorkItemStatusMismatch))
    else
      var row := t.workItems[target];
      var document := row.document.(status := status, version := row.version + 1, blocker := blocker,
          updatedAt := updatedAt);
      Ok(Change(
        t.(workItems := t.workItems[target := WorkItemRow(status, row.version + 1, blocker, updatedAt, document)]),
        WorkItemUpdated(target, row.status, status, blocker, rationale, updatedBy, updatedAt, row.version,
            row.version + 1)))
  }

  predicate IsContinuityOperation(op: Operation) {
    op.RecordDecision? || op.SupersedeDecision? || op.OpenQuestion? || op.AnswerQuestion?
    || op.DropQuestion? || op.CreateWorkItem? || op.UpdateWorkItem?
  }

  function Apply(t: Tables, op: Operation): Result<Change, Failure>
    requires IsContinuityOperation(op)
  {
    match op
    case RecordDecision(decision) => RecordDecision(t, decision)
    case SupersedeDecision(target, disposition, replacement, rationale) =>
        SupersedeDecision(t, target, disposition, replacement, rationale)
    case OpenQuestion(question) => OpenQuestion(t, question)
    case AnswerQuestion(target, answer) => AnswerQuestion(t, target, answer)
    case DropQuestion(target, drop) => DropQuestion(t, target, drop)
    case CreateWorkItem(item) => CreateWorkItem(t, item)
    case UpdateWorkItem(target, status, blocker, rationale, who, time) =>
        UpdateWorkItem(t, target, status, blocker, rationale, who, time)
  }

  predicate IsContinuityEvent(e: Event) {
    e.DecisionRecorded? || e.DecisionReplaced? || e.QuestionOpened? || e.QuestionAnsweredEvent?
    || e.QuestionDroppedEvent? || e.WorkItemCreated? || e.WorkItemUpdated?
  }

  /** The operation an event is replayed as; the recorded versions and statuses are dropped. */
  function OperationOf(e: Event): (op: Operation)
    requires IsContinuityEvent(e)
    ensures IsContinuityOperation(op)
  {
    match e
    case DecisionRecorded(decision) => Operation.RecordDecision(decision)
    case DecisionReplaced(target, disposition, replacement, rationale, _, _) =>
        Operation.SupersedeDecision(target, disposition, replacement, rationale)
    case QuestionOpened(question) => Operation.OpenQuestion(question)
    case QuestionAnsweredEvent(target, answer, _, _) => Operation.AnswerQuestion(target, answer)
    case QuestionDroppedEvent(target, drop, _, _) => Operation.DropQuestion(target, drop)
    case WorkItemCreated(item) => Operation.CreateWorkItem(item)
    case WorkItemUpdated(target, _, status, blocker, rationale, who, time, _, _) =>
        Operation.UpdateWorkItem(target, status, blocker, rationale, who, time)
  }

  /** Replay regenerates the event from the state before it and compares. */
  function ApplyEvent(t: Tables, e: Event): Result<Tables, Failure>
    requires IsContinuityEvent(e)
  {
    match Apply(t, OperationOf(e))
    case Err(failure) => Err(failure)
    case Ok(change) => if change.event == e then Ok(change.tables) else Err(Invalid(ReplayTransitionMismatch))
  }
}
