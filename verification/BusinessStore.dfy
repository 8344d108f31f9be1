/** The Task and Approval tables with their conditional and two-row writes
    (backend/app/tasks/repository.py, backend/app/tasks/pause_persistence.py, backend/app/approvals/repository.py,
    backend/app/approvals/continuation_persistence.py, backend/app/approvals/rejection_persistence.py). */
module BusinessStore {
  import opened Values
  import opened TaskModel
  import opened ApprovalModel

  type Tasks = map<TaskId, TaskRow>

  datatype Rows = Rows(tasks: Tasks, approvals: Approvals)

  /** The snapshot still owns the row: same status and generation. */
  predicate Current(tasks: Tasks, expected: TaskRow) {
    && expected.id in tasks
    && tasks[expected.id].status == expected.status
    && tasks[expected.id].updatedAt == expected.updatedAt
  }

  function Written(tasks: Tasks, candidate: TaskRow): Tasks
    requires candidate.id in tasks
  {
    tasks[candidate.id := tasks[candidate.id].(
      status := candidate.status, result := candidate.result, error := candidate.error, updatedAt := candidate.updatedAt)]
  }

  /** Did the transaction reach the database? */
  predicate Commits(fault: Fault) {
    fault.Fine? || fault == CommitLost(true)
  }

  predicate Reconcilable(candidate: TaskRow, expected: TaskRow) {
    candidate.WellFormed() && candidate.id == expected.id
  }

  function ReconciledTasks(tasks: Tasks, candidate: TaskRow, expected: TaskRow, fault: Fault): Tasks {
    if Reconcilable(candidate, expected) && Current(tasks, expected) && Commits(fault) then Written(tasks, candidate)
    else tasks
  }

  function ReconcileReply(tasks: Tasks, candidate: TaskRow, expected: TaskRow, fault: Fault): Result<bool> {
    if !Reconcilable(candidate, expected) then Err(TaskInvalid)
    else if !fault.Fine? then Err(DatabaseError)
    else Ok(Current(tasks, expected))
  }

  predicate PauseFits(candidate: TaskRow, approval: ApprovalRow, expected: TaskRow) {
    && candidate.status.WAITING_APPROVAL?
    && approval.taskId == candidate.id
    && expected.id == candidate.id
    && expected.status.RUNNING?
  }

  predicate PauseLands(rows: Rows, candidate: TaskRow, approval: ApprovalRow, expected: TaskRow) {
    && PauseFits(candidate, approval, expected)
    && approval.status.PENDING? && approval.decidedAt.None?
    && approval.id !in rows.approvals
    && candidate.WellFormed()
    && Current(rows.tasks, expected)
  }

  function PausedRows(rows: Rows, candidate: TaskRow, approval: ApprovalRow, expected: TaskRow, fault: Fault): Rows {
    if PauseLands(rows, candidate, approval, expected) && Commits(fault)
    then Rows(Written(rows.tasks, candidate), rows.approvals[approval.id := approval])
    else rows
  }

  function PauseError(rows: Rows, candidate: TaskRow, approval: ApprovalRow, expected: TaskRow,
                      fault: Fault): Option<Error> {
    if !PauseFits(candidate, approval, expected) then Some(ValueError)
    else if !approval.status.PENDING? || approval.decidedAt.Some? then Some(ApprovalInvalid)
    else if fault.BodyError? || approval.id in rows.approvals then Some(DatabaseError)
    else if !candidate.WellFormed() then Some(TaskInvalid)
    else if !Current(rows.tasks, expected) then Some(OwnershipLost)
    else if fault.CommitLost? then Some(DatabaseError)
    else None
  }

  /** A decision and the Task status that goes with it. */
  predicate DecisionFits(approval: ApprovalRow, task: TaskRow) {
    && approval.taskId == task.id
    && ((approval.status.APPROVED? && task.status.RUNNING?) || (approval.status.REJECTED? && task.status.REJECTED?))
  }

  /** Both conditional updates find their row. */
  predicate DecisionLands(rows: Rows, approval: ApprovalRow, task: TaskRow) {
    && DecisionFits(approval, task)
    && approval.WellFormed() && task.WellFormed()
    && approval.id in rows.approvals
    && rows.approvals[approval.id].taskId == approval.taskId
    && rows.approvals[approval.id].status.PENDING?
    && task.id in rows.tasks
    && rows.tasks[task.id].status.WAITING_APPROVAL?
  }

  function DecidedRows(rows: Rows, approval: ApprovalRow, task: TaskRow, fault: Fault): Rows {
    if DecisionLands(rows, approval, task) && Commits(fault)
    then Rows(rows.tasks[task.id := rows.tasks[task.id].(status := task.status, result := None, error := None,
                                                         updatedAt := task.updatedAt)],
              rows.approvals[approval.id := rows.approvals[approval.id].(status := approval.status,
                                                                         decidedAt := approval.decidedAt)])
    else rows
  }

  function DecisionReply(rows: Rows, approval: ApprovalRow, task: TaskRow, fault: Fault): Result<bool> {
    if !DecisionFits(approval, task) then Err(ValueError)
    else if !approval.WellFormed() then Err(ApprovalInvalid)
    else if fault.BodyError? then Err(DatabaseError)
    else if !(approval.id in rows.approvals && rows.approvals[approval.id].taskId == approval.taskId
              && rows.approvals[approval.id].status.PENDING?
              && approval.taskId in rows.tasks && rows.tasks[approval.taskId].status.WAITING_APPROVAL?) then Ok(false)
    else if !task.WellFormed() then Err(TaskInvalid)
    else if fault.CommitLost? then Err(DatabaseError)
    else Ok(true)
  }

  /** A lost acknowledgement says nothing about the commit: the tables are either those of the acknowledged transaction or as
      they were; a transaction that failed earlier changes nothing. */
  lemma CommitsTell(rows: Rows, task: TaskRow, approval: ApprovalRow, expected: TaskRow, fault: Fault)
    ensures var unheard, undone := fault == CommitLost(true), fault == BodyError || fault == CommitLost(false);
            && (unheard ==>
                  && ReconciledTasks(rows.tasks, task, expected, fault) == ReconciledTasks(rows.tasks, task, expected, Fine)
                  && PausedRows(rows, task, approval, expected, fault) == PausedRows(rows, task, approval, expected, Fine)
                  && DecidedRows(rows, approval, task, fault) == DecidedRows(rows, approval, task, Fine))
            && (undone ==>
                  && ReconciledTasks(rows.tasks, task, expected, fault) == rows.tasks
                  && PausedRows(rows, task, approval, expected, fault) == rows
                  && DecidedRows(rows, approval, task, fault) == rows)
  {
  }

  /** Both tables; every method is one transaction. */
  class Store {
    var tasks: Tasks
    var approvals: Approvals

    constructor ()
      ensures tasks == map[] && approvals == map[]
    {
      tasks, approvals := map[], map[];
    }

    function All(): Rows
      reads this
    {
      Rows(tasks, approvals)
    }

    method GetTask(id: TaskId) returns (found: Option<TaskRow>)
      ensures found == if id in tasks then Some(tasks[id]) else None
    {
      found := if id in tasks then Some(tasks[id]) else None;
    }

    method GetApproval(id: ApprovalId) returns (found: Option<ApprovalRow>)
      ensures found == if id in approvals then Some(approvals[id]) else None
    {
      found := if id in approvals then Some(approvals[id]) else None;
    }

    /** Unconditional insert or update, used only while the Task has a single writer. */
    method Save(row: TaskRow, fault: Fault) returns (failure: Option<Error>)
      modifies this`tasks
      ensures tasks == if Commits(fault) then old(tasks)[row.id := row] else old(tasks)
      ensures failure == if fault.Fine? then None else Some(DatabaseError)
    {
      if fault.BodyError? {
        return Some(DatabaseError);
      }
      var staged := tasks[row.id := row];
      if fault.CommitLost? {
        if fault.committed {
          tasks := staged;
        }
        return Some(DatabaseError);
      }
      tasks := staged;
      failure := None;
    }

    method ReconcileIfUnchanged(candidate: TaskRow, expected: TaskRow, fault: Fault) returns (reply: Result<bool>)
      modifies this`tasks
      ensures tasks == ReconciledTasks(old(tasks), candidate, expected, fault)
      ensures reply == ReconcileReply(old(tasks), candidate, expected, fault)
    {
      if !candidate.WellFormed() || candidate.id != expected.id {
        return Err(TaskInvalid);
      }
      if fault.BodyError? {
        return Err(DatabaseError);
      }
      var staged, count := tasks, 0;
      var id := expected.id;
      if id in staged && staged[id].status == expected.status && staged[id].updatedAt == expected.updatedAt {
        staged := staged[id := staged[id].(status := candidate.status, result := candidate.result,
                                           error := candidate.error, updatedAt := candidate.updatedAt)];
        count := 1;
      }
      if fault.CommitLost? {
        if fault.committed {
          tasks := staged;
        }
        return Err(DatabaseError);
      }
      tasks := staged;
      reply := Ok(count == 1);
    }

    method SaveFailedIfRunning(candidate: TaskRow, expected: TaskRow, fault: Fault) returns (reply: Result<bool>)
      modifies this`tasks
      ensures tasks == if candidate.status.FAILED? && expected.status.RUNNING?
                       then ReconciledTasks(old(tasks), candidate, expected, fault) else old(tasks)
      ensures reply == if candidate.status.FAILED? && expected.status.RUNNING?
                       then ReconcileReply(old(tasks), candidate, expected, fault) else Err(TaskInvalid)
    {
      if !candidate.WellFormed() || !candidate.status.FAILED? {
        return Err(TaskInvalid);
      }
      if !expected.status.RUNNING? {
        return Err(TaskInvalid);
      }
      reply := ReconcileIfUnchanged(candidate, expected, fault);
    }

    /** Exactly one Approval and its waiting Task, or neither. */
    method SavePause(candidate: TaskRow, approval: ApprovalRow, expected: TaskRow, fault: Fault)
      returns (failure: Option<Error>)
      modifies this
      ensures All() == PausedRows(old(All()), candidate, approval, expected, fault)
      ensures failure == PauseError(old(All()), candidate, approval, expected, fault)
    {
      if !candidate.status.WAITING_APPROVAL? || approval.taskId != candidate.id || expected.id != candidate.id
         || !expected.status.RUNNING? {
        return Some(ValueError);
      }
      if !approval.status.PENDING? || approval.decidedAt.Some? {
        return Some(ApprovalInvalid);
      }
      if fault.BodyError? || approval.id in approvals {
        return Some(DatabaseError);
      }
      var inserted := approvals[approval.id := approval];
      if !candidate.WellFormed() {
        return Some(TaskInvalid);
      }
      var id := expected.id;
      if !(id in tasks && tasks[id].status == expected.status && tasks[id].updatedAt == expected.updatedAt) {
        return Some(OwnershipLost);
      }
      var updated := tasks[id := tasks[id].(status := candidate.status, result := candidate.result,
                                            error := candidate.error, updatedAt := candidate.updatedAt)];
      if fault.CommitLost? {
        if fault.committed {
          approvals, tasks := inserted, updated;
        }
        return Some(DatabaseError);
      }
      approvals, tasks := inserted, updated;
      failure := None;
    }

    /** Approve and resume, or reject both; one row never changes without the other. */
    method SaveDecision(approval: ApprovalRow, task: TaskRow, fault: Fault) returns (reply: Result<bool>)
      modifies this
      ensures All() == DecidedRows(old(All()), approval, task, fault)
      ensures reply == DecisionReply(old(All()), approval, task, fault)
    {
      if !(approval.taskId == task.id
           && ((approval.status.APPROVED? && task.status.RUNNING?) || (approval.status.REJECTED? && task.status.REJECTED?))) {
        return Err(ValueError);
      }
      if !approval.WellFormed() {
        return Err(ApprovalInvalid);
      }
      if fault.BodyError? {
        return Err(DatabaseError);
      }
      var id := approval.id;
      if !(id in approvals && approvals[id].taskId == approval.taskId && approvals[id].status.PENDING?
           && approval.taskId in tasks && tasks[approval.taskId].status.WAITING_APPROVAL?) {
        return Ok(false);
      }
      var decided := approvals[id := approvals[id].(status := approval.status, decidedAt := approval.decidedAt)];
      if !task.WellFormed() {
        return Err(TaskInvalid);
      }
      var moved := tasks[task.id := tasks[task.id].(status := task.status, result := None, error := None,
                                                    updatedAt := task.updatedAt)];
      if fault.CommitLost? {
        if fault.committed {
          approvals, tasks := decided, moved;
        }
        return Err(DatabaseError);
      }
      approvals, tasks := decided, moved;
      reply := Ok(true);
    }
  }
}
