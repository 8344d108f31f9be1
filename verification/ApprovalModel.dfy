/** Human decisions on protected tool calls (backend/app/approvals/models.py). */
module ApprovalModel {
  import opened Values

  datatype ApprovalStatus = PENDING | APPROVED | REJECTED

  datatype ApprovalRow = ApprovalRow(
    id: ApprovalId,
    taskId: TaskId,
    callId: string,
    toolName: string,
    arguments: Arguments,
    status: ApprovalStatus,
    createdAt: Time,
    decidedAt: Option<Time>)
  {
    /** The validator that restore and every decision keep. */
    predicate WellFormed() {
      && (decidedAt.None? <==> status.PENDING?)
      && (decidedAt.Some? ==> createdAt <= decidedAt.value)
    }

    predicate SameRequest(other: ApprovalRow) {
      && id == other.id && taskId == other.taskId && callId == other.callId
      && toolName == other.toolName && arguments == other.arguments && createdAt == other.createdAt
    }

    /** Is this the approval of exactly that call? */
    predicate Covers(task: TaskId, call: ToolCall) {
      taskId == task && callId == call.id && toolName == call.name && arguments == call.arguments
    }
  }

  type Approvals = map<ApprovalId, ApprovalRow>

  /** A persisted APPROVED row with the same task, call id, tool name and arguments. */
  predicate Authorizes(approvals: Approvals, approval: ApprovalId, task: TaskId, call: ToolCall) {
    && approval in approvals
    && approvals[approval].status.APPROVED?
    && approvals[approval].id == approval
    && approvals[approval].Covers(task, call)
  }

  /** How the table may change: requests are kept, decisions are final. */
  ghost predicate Evolves(before: Approvals, after: Approvals) {
    forall id | id in before ::
      && id in after
      && after[id].SameRequest(before[id])
      && (!before[id].status.PENDING? ==> after[id] == before[id])
  }

  function Decided(row: ApprovalRow, target: ApprovalStatus, now: Time): Result<ApprovalRow> {
    if !row.status.PENDING? then Err(InvalidApprovalTransition)
    else if now < row.createdAt then Err(ApprovalInvalid)
    else Ok(row.(status := target, decidedAt := Some(now)))
  }

  /** An approval object whose decision methods overwrite status and decided_at. */
  class Approval {
    const id: ApprovalId
    const taskId: TaskId
    const callId: string
    const toolName: string
    const arguments: Arguments
    const createdAt: Time
    var status: ApprovalStatus
    var decidedAt: Option<Time>

    constructor (row: ApprovalRow)
      ensures Row() == row
    {
      id, taskId, callId, toolName := row.id, row.taskId, row.callId, row.toolName;
      arguments, createdAt := row.arguments, row.createdAt;
      status, decidedAt := row.status, row.decidedAt;
    }

    function Row(): ApprovalRow
      reads this
    {
      ApprovalRow(id, taskId, callId, toolName, arguments, status, createdAt, decidedAt)
    }

    method Decide(target: ApprovalStatus, now: Time) returns (failure: Option<Error>)
      modifies this
      ensures match Decided(old(Row()), target, now)
              case Ok(row) => failure == None && Row() == row
              case Err(e) => failure == Some(e) && Row() == old(Row())
    {
      if !status.PENDING? {
        return Some(InvalidApprovalTransition);
      }
      if now < createdAt {
        return Some(ApprovalInvalid);
      }
      status := target;
      decidedAt := Some(now);
      failure := None;
    }

    method Approve(now: Time) returns (failure: Option<Error>)
      modifies this
      ensures match Decided(old(Row()), APPROVED, now)
              case Ok(row) => failure == None && Row() == row
              case Err(e) => failure == Some(e) && Row() == old(Row())
    {
      failure := Decide(APPROVED, now);
    }

    method Reject(now: Time) returns (failure: Option<Error>)
      modifies this
      ensures match Decided(old(Row()), REJECTED, now)
              case Ok(row) => failure == None && Row() == row
              case Err(e) => failure == Some(e) && Row() == old(Row())
    {
      failure := Decide(REJECTED, now);
    }
  }
}
