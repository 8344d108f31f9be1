/** The lifecycle of a Task (backend/app/tasks/models.py). */
module TaskModel {
  import opened Values

  datatype TaskStatus = PENDING | RUNNING | WAITING_APPROVAL | SUCCEEDED | FAILED | REJECTED | RECOVERY_REQUIRED

  predicate IsSpace(c: char) {
    c == ' ' || '\t' <= c <= '\r' || '\U{1c}' <= c <= '\U{1f}'
  }

  /** Nothing is left after stripping. */
  predicate Blank(s: string) {
    forall i | 0 <= i < |s| :: IsSpace(s[i])
  }

  predicate Terminal(status: TaskStatus) {
    status.SUCCEEDED? || status.FAILED? || status.REJECTED?
  }

  datatype TaskRow = TaskRow(
    id: TaskId, status: TaskStatus, input: string, result: Option<string>, error: Option<string>, createdAt: Time,
    updatedAt: Time)
  {
    /** The shape that the validator demands in each status. */
    predicate WellFormed() {
      && (if status.SUCCEEDED? then result.Some? && !Blank(result.value) else result.None?)
      && (if status.FAILED? then error.Some? && !Blank(error.value) else error.None?)
      && createdAt <= updatedAt
    }
  }

  datatype Operation =
    | Start | MarkWaiting | ResumeApproved | RequireRecovery | ClaimRecovery | MarkRejected
    | Succeed(content: string) | Fail(message: string)

  /** The lifecycle as a table: which statuses an operation accepts, and which one it leads to. */
  function Sources(op: Operation): set<TaskStatus> {
    match op
    case Start => {PENDING}
    case MarkWaiting => {RUNNING}
    case ResumeApproved => {WAITING_APPROVAL}
    case RequireRecovery => {RUNNING, WAITING_APPROVAL}
    case ClaimRecovery => {RUNNING, RECOVERY_REQUIRED}
    case MarkRejected => {WAITING_APPROVAL}
    case Succeed(_) => {RUNNING}
    case Fail(_) => {RUNNING}
  }

  function Target(op: Operation): TaskStatus {
    match op
    case Start => RUNNING
    case MarkWaiting => WAITING_APPROVAL
    case ResumeApproved => RUNNING
    case RequireRecovery => RECOVERY_REQUIRED
    case ClaimRecovery => RUNNING
    case MarkRejected => REJECTED
    case Succeed(_) => SUCCEEDED
    case Fail(_) => FAILED
  }

  predicate Worded(op: Operation) {
    && (op.Succeed? ==> !Blank(op.content))
    && (op.Fail? ==> !Blank(op.message))
  }

  /** The row after an operation, or the exception; a refused operation leaves the Task as it was. */
  function Transition(op: Operation, row: TaskRow, now: Time): Result<TaskRow> {
    if !Worded(op) then Err(TaskInvalid)
    else if row.status !in Sources(op) then Err(InvalidTaskTransition)
    else if now < row.updatedAt then Err(TaskInvalid)
    else
      var stamped := row.(status := Target(op), updatedAt := if op.ClaimRecovery? then Max(now, row.updatedAt + 1)
                                                             else now);
      match op
      case Start => Ok(stamped.(result := None, error := None))
      case Succeed(content) => Ok(stamped.(result := Some(content), error := None))
      case Fail(message) => Ok(stamped.(result := None, error := Some(message)))
      case _ => Ok(stamped)
  }

  /** Every accepted operation keeps the shape and the identity, never moves time back, and starts
      from an open Task; the recovery claim alone is sure to move time forward. */
  lemma TransitionIsSound(op: Operation, row: TaskRow, now: Time)
    requires row.WellFormed() && Transition(op, row, now).Ok?
    ensures var next := Transition(op, row, now).value;
            && next.WellFormed()
            && next.id == row.id && next.input == row.input && next.createdAt == row.createdAt
            && row.updatedAt <= next.updatedAt && now <= next.updatedAt
            && (op.ClaimRecovery? ==> row.updatedAt < next.updatedAt)
            && !Terminal(row.status)
            && (row.status.PENDING? ==> next.status.RUNNING?)
            && (next.status.WAITING_APPROVAL? ==> row.status.RUNNING?)
            && (next.status.REJECTED? ==> row.status.WAITING_APPROVAL?)
  {
  }

  /** The same lifecycle read from the statuses: what may happen to a Task in each of them. */
  predicate MayHappen(status: TaskStatus, op: Operation) {
    match status
    case PENDING => op.Start?
    case RUNNING => op.MarkWaiting? || op.Succeed? || op.Fail? || op.RequireRecovery? || op.ClaimRecovery?
    case WAITING_APPROVAL => op.ResumeApproved? || op.MarkRejected? || op.RequireRecovery?
    case RECOVERY_REQUIRED => op.ClaimRecovery?
    case _ => false
  }

  /** An operation is accepted exactly when its text says something, its status allows it and the clock is not behind; each
      refusal has its exception, and an accepted one leads to the status it names. */
  lemma LifecycleByStatus(op: Operation, row: TaskRow, now: Time)
    requires row.WellFormed()
    ensures var reply := Transition(op, row, now);
            var worded := (op.Succeed? ==> !Blank(op.content)) && (op.Fail? ==> !Blank(op.message));
            && (reply.Ok? <==> worded && MayHappen(row.status, op) && row.updatedAt <= now)
            && (reply == Err(InvalidTaskTransition) <==> worded && !MayHappen(row.status, op))
            && (reply == Err(TaskInvalid) <==> !worded || (MayHappen(row.status, op) && now < row.updatedAt))
            && (reply.Ok? ==>
                  var next := reply.value;
                  && (next.status == RUNNING <==> op.Start? || op.ResumeApproved? || op.ClaimRecovery?)
                  && (next.status == WAITING_APPROVAL <==> op.MarkWaiting?)
                  && (next.status == RECOVERY_REQUIRED <==> op.RequireRecovery?)
                  && (next.status == REJECTED <==> op.MarkRejected?)
                  && (next.status == SUCCEEDED <==> op.Succeed?) && (op.Succeed? ==> next.result == Some(op.content))
                  && (next.status == FAILED <==> op.Fail?) && (op.Fail? ==> next.error == Some(op.message))
                  && (if op.ClaimRecovery? && now == row.updatedAt then next.updatedAt == now + 1
                      else next.updatedAt == now))
  {
  }

  /** What a transition method promises about the fields before and after the call. */
  predicate Obeys(op: Operation, now: Time, before: TaskRow, after: TaskRow, failure: Option<Error>) {
    match Transition(op, before, now)
    case Ok(row) => failure == None && after == row
    case Err(e) => failure == Some(e) && after == before
  }

  /** A Task object; its transition methods overwrite the fields in place. */
  class Task {
    const id: TaskId
    const input: string
    const createdAt: Time
    var status: TaskStatus
    var result: Option<string>
    var error: Option<string>
    var updatedAt: Time

    constructor Restore(row: TaskRow)
      ensures Row() == row
    {
      id, input, createdAt := row.id, row.input, row.createdAt;
      status, result, error, updatedAt := row.status, row.result, row.error, row.updatedAt;
    }

    function Row(): TaskRow
      reads this
    {
      TaskRow(id, status, input, result, error, createdAt, updatedAt)
    }

    method Start(now: Time) returns (failure: Option<Error>)
      modifies this
      ensures Obeys(Operation.Start, now, old(Row()), Row(), failure)
    {
      if status != PENDING { return Some(InvalidTaskTransition); }
      if now < updatedAt { return Some(TaskInvalid); }
      result, error := None, None;
      status, updatedAt := RUNNING, now;
      failure := None;
    }

    method MarkWaitingApproval(now: Time) returns (failure: Option<Error>)
      modifies this
      ensures Obeys(MarkWaiting, now, old(Row()), Row(), failure)
    {
      if status != RUNNING { return Some(InvalidTaskTransition); }
      if now < updatedAt { return Some(TaskInvalid); }
      status, updatedAt := WAITING_APPROVAL, now;
      failure := None;
    }

    method ResumeApproved(now: Time) returns (failure: Option<Error>)
      modifies this
      ensures Obeys(Operation.ResumeApproved, now, old(Row()), Row(), failure)
    {
      if status != WAITING_APPROVAL { return Some(InvalidTaskTransition); }
      if now < updatedAt { return Some(TaskInvalid); }
      status, updatedAt := RUNNING, now;
      failure := None;
    }

    method RequireRecovery(now: Time) returns (failure: Option<Error>)
      modifies this
      ensures Obeys(Operation.RequireRecovery, now, old(Row()), Row(), failure)
    {
      if status != RUNNING && status != WAITING_APPROVAL { return Some(InvalidTaskTransition); }
      if now < updatedAt { return Some(TaskInvalid); }
      status, updatedAt := RECOVERY_REQUIRED, now;
      failure := None;
    }

    method ClaimRecovery(now: Time) returns (failure: Option<Error>)
      modifies this
      ensures Obeys(Operation.ClaimRecovery, now, old(Row()), Row(), failure)
    {
      if status != RUNNING && status != RECOVERY_REQUIRED { return Some(InvalidTaskTransition); }
      if now < updatedAt { return Some(TaskInvalid); }
      status, updatedAt := RUNNING, Max(now, updatedAt + 1);
      failure := None;
    }

    method MarkRejected(now: Time) returns (failure: Option<Error>)
      modifies this
      ensures Obeys(Operation.MarkRejected, now, old(Row()), Row(), failure)
    {
      if status != WAITING_APPROVAL { return Some(InvalidTaskTransition); }
      if now < updatedAt { return Some(TaskInvalid); }
      status, updatedAt := REJECTED, now;
      failure := None;
    }

    method Succeed(content: string, now: Time) returns (failure: Option<Error>)
      modifies this
      ensures Obeys(Operation.Succeed(content), now, old(Row()), Row(), failure)
    {
      if Blank(content) { return Some(TaskInvalid); }
      if status != RUNNING { return Some(InvalidTaskTransition); }
      if now < updatedAt { return Some(TaskInvalid); }
      result, error := Some(content), None;
      status, updatedAt := SUCCEEDED, now;
      failure := None;
    }

    method Fail(message: string, now: Time) returns (failure: Option<Error>)
      modifies this
      ensures Obeys(Operation.Fail(message), now, old(Row()), Row(), failure)
    {
      if Blank(message) { return Some(TaskInvalid); }
      if status != RUNNING { return Some(InvalidTaskTransition); }
      if now < updatedAt { return Some(TaskInvalid); }
      result, error := None, Some(message);
      status, updatedAt := FAILED, now;
      failure := None;
    }
  }
}
