/** The product store in place: its tables are fields that the methods update. */
module ProductStore {
  import opened Skills
  import opened SkillStore
  import opened Wrappers

  class Store {
    var skills: Table
    var committed: seq<Proposal>
    var proposalIds: set<string>
    var receipts: map<string, Receipt>

    ghost function Value(): State
      reads this
    {
      State(skills, committed, proposalIds, receipts)
    }

    constructor ()
      ensures Value() == EMPTY
    {
      skills, committed, proposalIds, receipts := map[], [], {}, map[];
    }

    // ------------------------------------------------------------------- skill table

    /** An approved version of a skill, when there is one. */
    method FindApproved(skillId: string) returns (found: Option<Key>)
      ensures found.Some? ==> ApprovedAt(skills, found.value) && found.value.skillId == skillId
      ensures found.None? ==> forall k :: ApprovedAt(skills, k) ==> k.skillId != skillId
    {
      var approved := set k | k in skills && skills[k].status == Approved && k.skillId == skillId;
      if approved == {} {
        assert forall k :: ApprovedAt(skills, k) && k.skillId == skillId ==> k in approved;
        return None;
      }
      var k :| k in approved;
      return Some(k);
    }

    method PutSkill(skill: Record, now: Time) returns (error: Option<Code>)
      requires OneApproved(skills)
      modifies `skills
      ensures match Put(old(skills), skill, now)
              case Ok(after) => error == None && skills == after
              case Err(code) => error == Some(code) && skills == old(skills)
    {
      if skill.key in skills {
        return if skills[skill.key].contentHash != skill.contentHash then Some(SkillVersionReuse) else None;
      }
      ghost var before := skills;
      if skill.status == Approved {
        var approved := FindApproved(skill.key.skillId);
        if approved.Some? {
          skills := skills[approved.value := skills[approved.value].(status := Deprecated, updatedAt := now)];
        }
      }
      skills := skills[skill.key := RowOf(skill)];
      return None;
    }

    method UpdateSkillStatus(k: Key, status: Status, expected: Status, time: Time) returns (error: Option<Code>)
      modifies `skills
      ensures match UpdateStatus(old(skills), k, status, expected, time)
              case Ok(after) => error == None && skills == after
              case Err(code) => error == Some(code) && skills == old(skills)
    {
      if k !in skills {
        return Some(SkillNotFound);
      }
      if skills[k].status != expected {
        return Some(SkillStatusMismatch);
      }
      var row := skills[k].(status := status, updatedAt := time);
      if status == Approved {
        skills := Demoted(skills, k.skillId, Some(k.version), time);
      }
      skills := skills[k := row];
      return None;
    }

    method ApplySkillOperation(op: Operation, occurredAt: Time, now: Time) returns (error: Option<Code>)
      requires OneApproved(skills)
      modifies `skills
      ensures match Apply(old(skills), op, occurredAt, now)
              case Ok(after) => error == None && skills == after && OneApproved(skills)
              case Err(code) => error == Some(code) && skills == old(skills)
    {
      ghost var before := skills;
      match op {
        case CreateSkill(skill) => error := PutSkill(skill, now);
        case ImportSkill(skill) => error := PutSkill(skill, now);
        case ReviseSkill(skillId, expectedVersion, replacement) =>
          if Key(skillId, expectedVersion) !in skills {
            return Some(SkillNotFound);
          }
          if !Latest(skills, skillId, expectedVersion) {
            return Some(SkillVersionMismatch);
          }
          if replacement.key != Key(skillId, expectedVersion + 1) {
            return Some(SkillRevisionInvalid);
          }
          error := PutSkill(replacement, now);
        case MarkSkillTested(skillId, version) =>
            error := UpdateSkillStatus(Key(skillId, version), Tested, Draft, occurredAt);
        case ApproveSkill(skillId, version) =>
            error := UpdateSkillStatus(Key(skillId, version), Approved, Tested, occurredAt);
        case DeprecateSkill(skillId, version, expected) =>
          error := UpdateSkillStatus(Key(skillId, version), Deprecated, expected, occurredAt);
      }
      if error.None? {
        ApplyKeepsOneApproved(before, op, occurredAt, now);
      }
    }

    // --------------------------------------------------------------------- proposals

    /** Applying every operation; the first error undoes them all. */
    method ApplyOperations(p: Proposal, clock: seq<Time>) returns (error: Option<Code>)
      requires |clock| == |p.operations| && OneApproved(skills)
      modifies `skills
      ensures match ApplyAll(old(skills), p.operations, |p.operations|, p.proposedAt, clock)
              case Ok(after) => error == None && skills == after
              case Err(code) => error == Some(code) && skills == old(skills)
    {
      var snapshot := skills;
      var ops := p.operations;
      for i := 0 to |ops|
        invariant OneApproved(skills)
        invariant ApplyAll(snapshot, ops, i, p.proposedAt, clock) == Ok(skills)
      {
        error := ApplyNext(ops, i, p.proposedAt, clock, snapshot);
        if error.Some? {
          skills := snapshot;
          return;
        }
      }
      return None;
    }

    method ApplyNext(ops: seq<Operation>, i: nat, occurredAt: Time, clock: seq<Time>, ghost start: Table)
        returns (error: Option<Code>)
      requires i < |ops| == |clock| && OneApproved(skills) && ApplyAll(start, ops, i, occurredAt, clock) == Ok(skills)
      modifies `skills
      ensures error.None? ==> OneApproved(skills) && ApplyAll(start, ops, i + 1, occurredAt, clock) == Ok(skills)
      ensures error.Some? ==> ApplyAll(start, ops, |ops|, occurredAt, clock) == Err(error.value)
    {
      ghost var before := skills;
      error := ApplySkillOperation(ops[i], occurredAt, clock[i]);
      if error.Some? {
        FailureStays(start, ops, i + 1, occurredAt, clock);
      }
    }

    method Enter(p: Proposal, receipt: Receipt) returns (refusal: Option<Refusal>)
      modifies `committed, `proposalIds, `receipts
      ensures match SkillStore.Entered(old(Value()), p, receipt)
              case Ok((after, _)) => refusal == None && Value() == after
              case Err(why) => refusal == Some(why) && Value() == old(Value())
    {
      if p.proposalId in proposalIds {
        return Some(ProposalIdReuse);
      }
      proposalIds := proposalIds + {p.proposalId};
      receipts := receipts[p.idempotencyKey := receipt];
      if receipt.outcome == Committed {
        committed := committed + [p];
      }
      return None;
    }

    method CommitProductProposal(p: Proposal, clock: seq<Time>, elsewhere: string)
        returns (result: Result<Receipt, Refusal>)
      requires |clock| == |p.operations| && OneApproved(skills)
      modifies this
      ensures Value() == SkillStore.After(old(Value()), p, clock, elsewhere)
      ensures match Commit(old(Value()), p, clock, elsewhere)
              case Ok((_, receipt)) => result == Ok(receipt)
              case Err(why) => result == Err(why)
    {
      var before := StateHash(skills, elsewhere);
      if p.idempotencyKey in receipts {
        var prior := receipts[p.idempotencyKey];
        if prior.proposalHash == ProposalHash(p) {
          return Ok(prior);
        }
        return Ok(prior.(outcome := ValidationError, reasons := [IdempotencyKeyReuse], stateBefore := before,
            stateAfter := before));
      }
      var receipt: Receipt;
      var snapshot := skills;
      if p.expectedState.Some? && p.expectedState.value != before {
        receipt := Decided(p, TransactionConflict, [StateHashMismatch], before, before);
      } else {
        var error := ApplyOperations(p, clock);
        receipt := if error.Some? then Decided(p, OutcomeOf(error.value), [Failed(error.value)], before, before)
                   else Decided(p, Committed, [], before, StateHash(skills, elsewhere));
      }
      var refusal := Enter(p, receipt);
      if refusal.Some? {
        skills := snapshot;
        return Err(refusal.value);
      }
      return Ok(receipt);
    }

    // ------------------------------------------------------------------------ replay

    /** Replaying the committed proposals and comparing the outcome with the table; None when
        an operation names a version the replay does not have. */
    method VerifySkillReplay() returns (valid: Option<bool>)
      ensures valid == match Rebuild(committed, |committed|)
                       case None => None
                       case Some(replayed) => Some(replayed == Listing(skills))
    {
      var state: Replayed := map[];
      for i := 0 to |committed|
        invariant Rebuild(committed, i) == Some(state)
      {
        var p := committed[i];
        ghost var before := state;
        for k := 0 to |p.operations|
          invariant ReplayAll(before, p.operations, k, p.proposedAt) == Some(state)
        {
          if !Replayable(state, p.operations[k]) {
            ReplayFailureStays(before, p.operations, k + 1, p.proposedAt);
            RebuildFailureStays(committed, i + 1);
            return None;
          }
          state := Replay(state, p.operations[k], p.proposedAt);
        }
      }
      return Some(state == Listing(skills));
    }
  }

  lemma {:induction false} FailureStays(t: Table, operations: seq<Operation>, n: nat, occurredAt: Time,
      clock: seq<Time>)
    requires n <= |operations| == |clock| && ApplyAll(t, operations, n, occurredAt, clock).Err?
    ensures ApplyAll(t, operations, |operations|, occurredAt, clock) == ApplyAll(t, operations, n, occurredAt, clock)
    decreases |operations| - n
  {
    if n < |operations| {
      FailureStays(t, operations, n + 1, occurredAt, clock);
    }
  }

  lemma {:induction false} ReplayFailureStays(s: Replayed, operations: seq<Operation>, n: nat, occurredAt: Time)
    requires n <= |operations| && ReplayAll(s, operations, n, occurredAt).None?
    ensures ReplayAll(s, operations, |operations|, occurredAt).None?
    decreases |operations| - n
  {
    if n < |operations| {
      ReplayFailureStays(s, operations, n + 1, occurredAt);
    }
  }

  lemma {:induction false} RebuildFailureStays(committed: seq<Proposal>, n: nat)
    requires n <= |committed| && Rebuild(committed, n).None?
    ensures Rebuild(committed, |committed|).None?
    decreases |committed| - n
  {
    if n < |committed| {
      RebuildFailureStays(committed, n + 1);
    }
  }
}
