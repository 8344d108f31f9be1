/** Rows of the execution ledger and the repository that owns them
    (backend/app/executions/models.py, backend/app/executions/repository.py). */
module LedgerModel {
  import opened Values

  datatype ExecutionStatus = EXECUTING | SUCCEEDED | FAILED | UNKNOWN

  /** The unique key of the table: one row per Task and ToolCall. */
  datatype Slot = Slot(task: TaskId, callId: string)

  datatype ToolExecution = ToolExecution(
    id: ExecutionId,
    taskId: TaskId,
    approvalId: ApprovalId,
    callId: string,
    toolName: string,
    arguments: Arguments,
    status: ExecutionStatus,
    key: ExecutionId,
    result: Option<string>,
    error: Option<string>,
    createdAt: Time,
    updatedAt: Time)
  {
    function SlotOf(): Slot {
      Slot(taskId, callId)
    }

    function Call(): ToolCall {
      ToolCall(callId, toolName, arguments)
    }

    /** The model validator: shape of a row in each status. */
    predicate WellFormed() {
      && key == id
      && createdAt <= updatedAt
      && (result.Some? <==> status.SUCCEEDED?)
      && (error.Some? <==> status.FAILED? || status.UNKNOWN?)
      && (error.Some? ==> error.value != "")
    }

    /** Same identity and authorization; status, result, error and time may differ. */
    predicate SameIdentity(other: ToolExecution) {
      && id == other.id && key == other.key
      && taskId == other.taskId && approvalId == other.approvalId
      && callId == other.callId && toolName == other.toolName && arguments == other.arguments
      && createdAt == other.createdAt
    }

    predicate Settled() {
      status.SUCCEEDED? || status.FAILED?
    }

    /** A frozen row with a terminal outcome; the time never moves back. */
    function Finish(outcome: ExecutionStatus, content: Option<string>, code: Option<string>,
                    now: Time): Result<ToolExecution> {
      if !status.EXECUTING? || outcome.EXECUTING? then Err(ValueError)
      else Restore(this.(status := outcome, result := content, error := code, updatedAt := Max(updatedAt, now)))
    }
  }

  type Ledger = map<Slot, ToolExecution>

  function Restore(row: ToolExecution): Result<ToolExecution> {
    if row.WellFormed() then Ok(row) else Err(ValueError)
  }

  function Candidate(id: ExecutionId, task: TaskId, approval: ApprovalId, call: ToolCall, created: Time,
                     updated: Time): ToolExecution {
    ToolExecution(id, task, approval, call.id, call.name, call.arguments, EXECUTING, id, None, None, created, updated)
  }

  function Lookup(rows: Ledger, slot: Slot): Option<ToolExecution> {
    if slot in rows then Some(rows[slot]) else None
  }

  predicate IdTaken(rows: Ledger, id: ExecutionId) {
    exists s | s in rows :: rows[s].id == id
  }

  datatype Claimed = Claimed(row: ToolExecution, won: bool)

  /** What the table holds after the insert, when it commits. */
  function Inserted(rows: Ledger, candidate: ToolExecution): Ledger {
    if candidate.SlotOf() in rows then rows else rows[candidate.SlotOf() := candidate]
  }

  /** The insert is refused by the primary key, not by the unique slot. */
  predicate InsertFails(rows: Ledger, candidate: ToolExecution, fault: Fault) {
    fault.BodyError? || (candidate.SlotOf() !in rows && IdTaken(rows, candidate.id))
  }

  function ClaimedTable(rows: Ledger, candidate: ToolExecution, fault: Fault): Ledger {
    if !candidate.WellFormed() || !candidate.status.EXECUTING? || InsertFails(rows, candidate, fault) then rows
    else if fault == CommitLost(false) then rows
    else Inserted(rows, candidate)
  }

  function ClaimReply(rows: Ledger, candidate: ToolExecution, fault: Fault): Result<Claimed> {
    if !candidate.WellFormed() || !candidate.status.EXECUTING? then Err(ValueError)
    else if InsertFails(rows, candidate, fault) then Err(DatabaseError)
    else if fault.CommitLost? then Err(PersistenceUncertain)
    else Ok(Claimed(Inserted(rows, candidate)[candidate.SlotOf()], candidate.SlotOf() !in rows))
  }

  /** WHERE id, status and updated_at are those of the snapshot that was read. */
  predicate Unchanged(rows: Ledger, expected: ToolExecution) {
    && expected.SlotOf() in rows
    && rows[expected.SlotOf()].id == expected.id
    && rows[expected.SlotOf()].status == expected.status
    && rows[expected.SlotOf()].updatedAt == expected.updatedAt
  }

  /** May this snapshot be claimed again at all? */
  predicate Reclaimable(expected: ToolExecution, staleBefore: Time) {
    (expected.status.EXECUTING? || expected.status.UNKNOWN?) && expected.updatedAt <= staleBefore
  }

  function Renewal(row: ToolExecution, expected: ToolExecution, now: Time): ToolExecution {
    row.(status := EXECUTING, error := None, updatedAt := Max(now, expected.updatedAt + 1))
  }

  function ReclaimedTable(rows: Ledger, expected: ToolExecution, staleBefore: Time, now: Time, fault: Fault): Ledger {
    if !Reclaimable(expected, staleBefore) || fault.BodyError? || fault == CommitLost(false) then rows
    else if !Unchanged(rows, expected) then rows
    else rows[expected.SlotOf() := Renewal(rows[expected.SlotOf()], expected, now)]
  }

  function ReclaimReply(rows: Ledger, expected: ToolExecution, staleBefore: Time, now: Time,
                        fault: Fault): Result<Option<ToolExecution>> {
    if !Reclaimable(expected, staleBefore) then Ok(None)
    else if fault.BodyError? then Err(DatabaseError)
    else if fault.CommitLost? then Err(PersistenceUncertain)
    else if !Unchanged(rows, expected) then Ok(None)
    else match Restore(Renewal(expected, expected, now))
      case Ok(row) => Ok(Some(row))
      case Err(e) => Err(e)
  }

  /** WHERE id, EXECUTING and, when given, the generation of the claim. */
  predicate Owned(rows: Ledger, candidate: ToolExecution, generation: Option<Time>) {
    && candidate.SlotOf() in rows
    && rows[candidate.SlotOf()].id == candidate.id
    && rows[candidate.SlotOf()].status.EXECUTING?
    && (generation.Some? ==> rows[candidate.SlotOf()].updatedAt == generation.value)
  }

  function FinishedRow(row: ToolExecution, candidate: ToolExecution): ToolExecution {
    row.(status := candidate.status, result := candidate.result, error := candidate.error,
         updatedAt := candidate.updatedAt)
  }

  function FinishedTable(rows: Ledger, candidate: ToolExecution, generation: Option<Time>, fault: Fault): Ledger {
    if !candidate.WellFormed() || candidate.status.EXECUTING? || fault.BodyError? || fault == CommitLost(false)
       || !Owned(rows, candidate, generation) then rows
    else rows[candidate.SlotOf() := FinishedRow(rows[candidate.SlotOf()], candidate)]
  }

  /** None when the write was acknowledged. */
  function FinishError(rows: Ledger, candidate: ToolExecution, generation: Option<Time>, fault: Fault): Option<Error> {
    if !candidate.WellFormed() || candidate.status.EXECUTING? then Some(ValueError)
    else if fault.BodyError? then Some(PersistenceUncertain)
    else if !Owned(rows, candidate, generation) then Some(PersistenceConflict)
    else if fault.CommitLost? then Some(PersistenceUncertain)
    else None
  }

  /** A lost acknowledgement says nothing about the commit: the table is either that of the acknowledged transaction or as
      it was; a transaction that failed earlier changes nothing. */
  lemma CommitsTell(rows: Ledger, row: ToolExecution, staleBefore: Time, now: Time, generation: Option<Time>, fault: Fault)
    ensures var unheard, undone := fault == CommitLost(true), fault == BodyError || fault == CommitLost(false);
            && (unheard ==>
                  && ClaimedTable(rows, row, fault) == ClaimedTable(rows, row, Fine)
                  && ReclaimedTable(rows, row, staleBefore, now, fault) == ReclaimedTable(rows, row, staleBefore, now, Fine)
                  && FinishedTable(rows, row, generation, fault) == FinishedTable(rows, row, generation, Fine))
            && (undone ==>
                  && ClaimedTable(rows, row, fault) == rows
                  && ReclaimedTable(rows, row, staleBefore, now, fault) == rows
                  && FinishedTable(rows, row, generation, fault) == rows)
  {
  }

  /** The table, written one short transaction at a time. */
  class ExecutionRepository {
    var rows: Ledger

    constructor ()
      ensures rows == map[]
    {
      rows := map[];
    }

    /** Every row of one Task. */
    method ListForTask(task: TaskId) returns (found: Ledger)
      ensures found == map slot | slot in rows && slot.task == task :: rows[slot]
    {
      found := map slot | slot in rows && slot.task == task :: rows[slot];
    }

    method Get(task: TaskId, callId: string) returns (found: Option<ToolExecution>)
      ensures found == Lookup(rows, Slot(task, callId))
    {
      if Slot(task, callId) in rows {
        found := Some(rows[Slot(task, callId)]);
      } else {
        found := None;
      }
    }

    method Claim(candidate: ToolExecution, fault: Fault) returns (reply: Result<Claimed>)
      modifies this
      ensures rows == ClaimedTable(old(rows), candidate, fault)
      ensures reply == ClaimReply(old(rows), candidate, fault)
      ensures reply == Err(PersistenceUncertain) ==> fault.CommitLost?
      ensures fault.CommitLost? && candidate.WellFormed() && candidate.status.EXECUTING?
              && (candidate.SlotOf() in old(rows) || forall s | s in old(rows) :: old(rows)[s].id != candidate.id) ==>
                reply == Err(PersistenceUncertain)
      ensures reply.Ok? ==> fault.Fine? && Lookup(rows, candidate.SlotOf()) == Some(reply.value.row)
      ensures fault.BodyError? ==> rows == old(rows) && reply in {Err(DatabaseError), Err(ValueError)}
    {
      if !candidate.WellFormed() || !candidate.status.EXECUTING? {
        return Err(ValueError);
      }
      if fault.BodyError? {
        return Err(DatabaseError);
      }
      var slot := candidate.SlotOf();
      var staged := rows;
      var claimed := slot !in staged;
      if claimed {
        if IdTaken(staged, candidate.id) {
          return Err(DatabaseError);
        }
        staged := staged[slot := candidate];
      }
      var row := staged[slot];
      if fault.CommitLost? {
        if fault.committed {
          rows := staged;
        }
        return Err(PersistenceUncertain);
      }
      rows := staged;
      reply := Ok(Claimed(row, claimed));
    }

    method ClaimRecovery(expected: ToolExecution, staleBefore: Time, now: Time, fault: Fault)
      returns (reply: Result<Option<ToolExecution>>)
      modifies this
      ensures rows == ReclaimedTable(old(rows), expected, staleBefore, now, fault)
      ensures reply == ReclaimReply(old(rows), expected, staleBefore, now, fault)
      ensures reply == Err(PersistenceUncertain) ==> fault.CommitLost?
      ensures fault.CommitLost? && expected.status in {EXECUTING, UNKNOWN} && expected.updatedAt <= staleBefore ==>
                reply == Err(PersistenceUncertain)
      ensures reply.Ok? && reply.value.Some? ==>
                && fault.Fine? && reply.value.value.SlotOf() in rows
                && rows[reply.value.value.SlotOf()].status.EXECUTING?
                && rows[reply.value.value.SlotOf()].updatedAt == reply.value.value.updatedAt > expected.updatedAt
      ensures fault.BodyError? ==> rows == old(rows) && reply in {Err(DatabaseError), Ok(None)}
    {
      if !(expected.status.EXECUTING? || expected.status.UNKNOWN?) || expected.updatedAt > staleBefore {
        return Ok(None);
      }
      var timestamp := Max(now, expected.updatedAt + 1);
      if fault.BodyError? {
        return Err(DatabaseError);
      }
      var slot := expected.SlotOf();
      var staged, count := rows, 0;
      if slot in staged && staged[slot].id == expected.id && staged[slot].status == expected.status
         && staged[slot].updatedAt == expected.updatedAt && staged[slot].updatedAt <= staleBefore {
        staged := staged[slot := staged[slot].(status := EXECUTING, error := None, updatedAt := timestamp)];
        count := 1;
      }
      if fault.CommitLost? {
        if fault.committed {
          rows := staged;
        }
        return Err(PersistenceUncertain);
      }
      rows := staged;
      if count != 1 {
        return Ok(None);
      }
      var restored := Restore(expected.(status := EXECUTING, error := None, updatedAt := timestamp));
      if restored.Err? {
        return Err(restored.error);
      }
      reply := Ok(Some(restored.value));
    }

    method Finish(candidate: ToolExecution, generation: Option<Time>, fault: Fault) returns (failure: Option<Error>)
      modifies this
      ensures rows == FinishedTable(old(rows), candidate, generation, fault)
      ensures failure == FinishError(old(rows), candidate, generation, fault)
      ensures candidate.WellFormed() && !candidate.status.EXECUTING? ==>
                && (fault.BodyError? ==> failure == Some(PersistenceUncertain))
                && (fault.CommitLost? ==> failure in {Some(PersistenceUncertain), Some(PersistenceConflict)})
                && (failure == Some(PersistenceUncertain) ==> !fault.Fine?)
                && (failure == Some(PersistenceConflict) ==> !Owned(old(rows), candidate, generation))
                && (Owned(old(rows), candidate, generation) && !fault.Fine? ==> failure == Some(PersistenceUncertain))
                && (failure.None? ==> candidate.SlotOf() in rows && rows[candidate.SlotOf()].status == candidate.status
                                      && rows[candidate.SlotOf()].result == candidate.result)
                && (failure.None? || failure.value in {PersistenceUncertain, PersistenceConflict})
    {
      if !candidate.WellFormed() || candidate.status.EXECUTING? {
        return Some(ValueError);
      }
      if fault.BodyError? {
        return Some(PersistenceUncertain);
      }
      var slot := candidate.SlotOf();
      if !(slot in rows && rows[slot].id == candidate.id && rows[slot].status.EXECUTING?
           && (generation.None? || rows[slot].updatedAt == generation.value)) {
        return Some(PersistenceConflict);
      }
      var staged := rows[slot := rows[slot].(status := candidate.status, result := candidate.result,
                                             error := candidate.error, updatedAt := candidate.updatedAt)];
      if fault.CommitLost? {
        if fault.committed {
          rows := staged;
        }
        return Some(PersistenceUncertain);
      }
      rows := staged;
      failure := None;
    }
  }
}
