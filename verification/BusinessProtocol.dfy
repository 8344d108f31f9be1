/** Task and Approval rows as a protocol: creators, continuations, human decisions and operators
    write the two tables in atomic steps (backend/app/tasks/service.py, backend/app/tasks/resume.py,
    backend/app/approvals/service.py, backend/app/tasks/recovery.py). */
module BusinessProtocol {
  import opened Values
  import opened TaskModel
  import opened ApprovalModel
  import opened BusinessStore

  /** What an actor carries between two transactions. */
  datatype Hold =
    | Free
    | Creating(row: TaskRow)         // its own PENDING Task is committed, not yet started
    | Captured(row: TaskRow)         // a snapshot of a Task, expected by the next conditional write
    | Dispatching(id: ApprovalId)    // an accepted approval whose resume is about to be called

  datatype Business = Business(
    rows: Rows,
    holds: map<ActorId, Hold>,
    left: map<TaskId, seq<Time>>,                        // RUNNING generations that a committed write ended
    decisions: map<ApprovalId, seq<ApprovalStatus>>,     // decisions that were committed
    dispatched: map<ApprovalId, seq<TaskId>>)            // resumes called by decide()

  const NOTHING := Business(Rows(map[], map[]), map[], map[], map[], map[])

  datatype Action =
    | Create(actor: ActorId, task: TaskId, input: string, created: Time, updated: Time, fault: Fault)
    | Launch(actor: ActorId, now: Time, fault: Fault)
    | Capture(actor: ActorId, task: TaskId)
    | Write(actor: ActorId, op: Operation, now: Time, fault: Fault)
    | Pause(actor: ActorId, approval: ApprovalRow, now: Time, fault: Fault)
    | Decide(actor: ActorId, id: ApprovalId, approve: bool, decidedAt: Time, now: Time, fault: Fault)
    | Dispatch(actor: ActorId)
    | Leave(actor: ActorId)

  function HoldOf(b: Business, a: ActorId): Hold {
    if a in b.holds then b.holds[a] else Free
  }

  function Take(b: Business, a: ActorId, h: Hold): Business {
    b.(holds := b.holds[a := h])
  }

  /** The operations that a holder of a snapshot writes by itself. */
  predicate Exit(op: Operation) {
    op.Succeed? || op.Fail? || op.RequireRecovery? || op.ClaimRecovery?
  }

  function Departed(b: Business, expected: TaskRow): map<TaskId, seq<Time>> {
    if expected.status.RUNNING? then Append(b.left, expected.id, expected.updatedAt) else b.left
  }

  predicate WriteLands(rows: Rows, candidate: TaskRow, expected: TaskRow, fault: Fault) {
    Reconcilable(candidate, expected) && Current(rows.tasks, expected) && Commits(fault)
  }

  function AfterWrite(b: Business, a: ActorId, expected: TaskRow, op: Operation, now: Time, fault: Fault): Business {
    match Transition(op, expected, now)
    case Err(_) => b
    case Ok(candidate) =>
      if !WriteLands(b.rows, candidate, expected, fault) then b
      else
        var c := b.(rows := b.rows.(tasks := Written(b.rows.tasks, candidate)), left := Departed(b, expected));
        if op.ClaimRecovery? && fault.Fine? then Take(c, a, Captured(candidate)) else c
  }

  function AfterPause(b: Business, expected: TaskRow, approval: ApprovalRow, now: Time, fault: Fault): Business {
    match Transition(MarkWaiting, expected, now)
    case Err(_) => b
    case Ok(candidate) =>
      if !(PauseLands(b.rows, candidate, approval, expected) && Commits(fault)) then b
      else b.(rows := PausedRows(b.rows, candidate, approval, expected, fault), left := Departed(b, expected))
  }

  /** The candidates that decide() prepares from the rows of its own transaction. */
  function Verdicts(rows: Rows, id: ApprovalId, approve: bool, decidedAt: Time,
                    now: Time): Result<(ApprovalRow, TaskRow)> {
    if id !in rows.approvals then Err(ApprovalNotFound)
    else if !rows.approvals[id].status.PENDING? then Err(DecisionConflict)
    else
      var approval := rows.approvals[id];
      if approval.taskId !in rows.tasks || !rows.tasks[approval.taskId].status.WAITING_APPROVAL? then Err(TaskContext)
      else
        match Decided(approval, if approve then APPROVED else ApprovalStatus.REJECTED, decidedAt)
        case Err(e) => Err(e)
        case Ok(decided) =>
          match Transition(if approve then ResumeApproved else MarkRejected, rows.tasks[approval.taskId], now)
          case Err(e) => Err(e)
          case Ok(task) => Ok((decided, task))
  }

  function AfterDecide(b: Business, a: ActorId, id: ApprovalId, approve: bool, decidedAt: Time, now: Time,
                       fault: Fault): Business {
    match Verdicts(b.rows, id, approve, decidedAt, now)
    case Err(_) => b
    case Ok((approval, task)) =>
      if !(DecisionLands(b.rows, approval, task) && Commits(fault)) then b
      else
        var c := b.(rows := DecidedRows(b.rows, approval, task, fault),
                    decisions := Append(b.decisions, id, approval.status));
        if approve && fault.Fine? then Take(c, a, Dispatching(id)) else c
  }

  /** One atomic step; a step that its actor cannot take changes nothing. */
  function Next(b: Business, act: Action): Business {
    var a := act.actor;
    match (act, HoldOf(b, a))
    case (Create(_, task, input, created, updated, fault), Free) =>
      var row := TaskRow(task, TaskStatus.PENDING, input, None, None, created, updated);
      if task in b.rows.tasks || !row.WellFormed() || !Commits(fault) then b
      else
        var c := b.(rows := b.rows.(tasks := b.rows.tasks[task := row]));
        if fault.Fine? then Take(c, a, Creating(row)) else c
    case (Launch(_, now, fault), Creating(row)) =>
      (match Transition(Start, row, now)
       case Err(_) => Take(b, a, Free)
       case Ok(running) =>
         var c := if Commits(fault) then b.(rows := b.rows.(tasks := b.rows.tasks[row.id := running])) else b;
         Take(c, a, if fault.Fine? then Captured(running) else Free))
    case (Capture(_, task), Creating(_)) => b
    case (Capture(_, task), Dispatching(_)) => b
    case (Capture(_, task), _) => if task in b.rows.tasks then Take(b, a, Captured(b.rows.tasks[task])) else b
    case (Write(_, op, now, fault), Captured(row)) => if Exit(op) then AfterWrite(b, a, row, op, now, fault) else b
    case (Pause(_, approval, now, fault), Captured(row)) => AfterPause(b, row, approval, now, fault)
    case (Decide(_, id, approve, decidedAt, now, fault), Free) => AfterDecide(b, a, id, approve, decidedAt, now, fault)
    case (Dispatch(_), Dispatching(id)) =>
      if id !in b.rows.approvals then b
      else
        var task := b.rows.approvals[id].taskId;
        var c := b.(dispatched := Append(b.dispatched, id, task));
        if task in b.rows.tasks && b.rows.tasks[task].status.RUNNING? then Take(c, a, Captured(b.rows.tasks[task]))
        else Take(c, a, Free)
    case (Leave(_), _) => Take(b, a, Free)
    case _ => b
  }
}
