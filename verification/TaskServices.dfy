/** One continuation of a Task, and the services that start one, as sequential code among other actors
    (backend/app/tasks/service.py, backend/app/tasks/resume.py, backend/app/approvals/service.py). */
module TaskServices {
  import opened Values
  import opened TaskModel
  import A = ApprovalModel
  import S = BusinessStore
  import B = BusinessProtocol
  import BI = BusinessInvariant
  import E = ExecutionProtocol
  import D = Deployment
  import G = AgentGraph
  import R = AgentRuntime
  import opened Invocations
  import opened Site

  /** Clock readings and faults of one continuation. */
  datatype Weather = Weather(now: Time, fault: Fault, failNow: Time, failFault: Fault)

  const UNSPECIFIC := "Agent execution failed."

  /** The text that a FAILED Task shows for an exception type. */
  function SafeMessage(error: Error): (message: string)
    ensures !Blank(message)
  {
    var message := match error
      case ConfigurationError => "Agent configuration is unavailable."
      case ProviderError => "LLM provider request failed."
      case InvalidResponse => "LLM provider returned an invalid response."
      case MaxStepsExceeded => "Agent execution exceeded the maximum step limit."
      case ToolNotFound => "Agent tool execution failed."
      case InvalidInput => "Agent tool execution failed."
      case ToolFailed => "Agent tool execution failed."
      case _ => UNSPECIFIC;
    assert message[|message| - 1] == '.';
    message
  }

  /** The three errors of a tool share one text, and those without a text of their own another. */
  lemma TextTells(e: Error)
    ensures SafeMessage(e) == "Agent tool execution failed." <==> e.ToolNotFound? || e.InvalidInput? || e.ToolFailed?
    ensures SafeMessage(e) == UNSPECIFIC <==>
              && !e.ConfigurationError? && !e.ProviderError? && !e.InvalidResponse? && !e.MaxStepsExceeded?
              && !e.ToolNotFound? && !e.InvalidInput? && !e.ToolFailed?
  {
    assert "LLM provider request failed."[0] != "Agent tool execution failed."[0];
  }

  /** Errors after which durable truth is left to a fresh recovery. */
  predicate HandsOff(error: Error) {
    error.OwnershipLost? || error.PersistenceUncertain?
  }

  /** Errors after which an effect may or may not have happened. */
  predicate Doubtful(error: Error) {
    error.OutcomeUnknown? || error.ReplayBlocked?
  }

  /** How an error is recorded on the Task. */
  function Marking(error: Error): Operation {
    if Doubtful(error) then RequireRecovery else Fail(SafeMessage(error))
  }

  /** The text is never the reason why an error cannot be recorded. */
  lemma MarkingIsAccepted(error: Error, row: TaskRow, now: Time)
    requires row.status == RUNNING
    ensures if now < row.updatedAt then Transition(Marking(error), row, now) == Err(TaskInvalid)
            else Transition(Marking(error), row, now).Ok?
  {
  }

  /** What the writer of a lifecycle update learns from it. */
  function WriteReply(tasks: S.Tasks, expected: TaskRow, op: Operation, now: Time, fault: Fault): Result<TaskRow> {
    match Transition(op, expected, now)
    case Err(e) => Err(e)
    case Ok(candidate) =>
      match S.ReconcileReply(tasks, candidate, expected, fault)
      case Err(e) => Err(e)
      case Ok(accepted) => if accepted then Ok(candidate) else Err(OwnershipLost)
  }

  /** What the writer of a pause learns from it. */
  function PauseReply(rows: S.Rows, expected: TaskRow, approval: A.ApprovalRow, now: Time,
                      fault: Fault): Result<TaskRow> {
    match Transition(MarkWaiting, expected, now)
    case Err(e) => Err(e)
    case Ok(waiting) =>
      match S.PauseError(rows, waiting, approval, expected, fault)
      case Some(e) => Err(e)
      case None => Ok(waiting)
  }

  /** What the caller learns after an error was recorded: that error, unless the clock is behind the Task. */
  function HandledReply(expected: TaskRow, error: Error, now: Time): Result<TaskRow> {
    Err(if now < expected.updatedAt then TaskInvalid else error)
  }

  /** What the caller of one continuation learns, given the tables that its first transaction meets. */
  function ContinueReply(rows: S.Rows, expected: TaskRow, invoked: Invoked, w: Weather): Result<TaskRow> {
    match invoked
    case Finished(content) => WriteReply(rows.tasks, expected, Succeed(content), w.now, w.fault)
    case Asked(approval) =>
      var paused := PauseReply(rows, expected, approval, w.now, w.fault);
      if paused.Ok? || HandsOff(paused.error) then paused else HandledReply(expected, paused.error, w.failNow)
    case Raised(e) =>
      if HandsOff(e) then Err(e) else HandledReply(expected, e, w.failNow)
  }

  /** A resume: the row that it took over if there was one, the moments of its read and of the first transaction
      of the continuation, its call of the runtime, and the reply. */
  datatype Taken = Taken(owned: Option<TaskRow>, read: nat, met: nat, visit: Visit, reply: Result<TaskRow>)

  const UNTAKEN := Taken(None, 0, 0, NO_VISIT, Err(ResumeAuthorization))

  /** The row that a continuation may take over. */
  function RunningIn(tasks: S.Tasks, id: TaskId): Option<TaskRow> {
    if id in tasks && tasks[id].status == RUNNING then Some(tasks[id]) else None
  }

  /** The step of a lifecycle write, spelled out. */
  lemma WriteStep(b: B.Business, me: ActorId, expected: TaskRow, candidate: TaskRow, op: Operation, now: Time,
                  fault: Fault)
    requires BI.Inv(b) && B.HoldOf(b, me) == B.Captured(expected) && B.Exit(op)
    requires Transition(op, expected, now) == Ok(candidate)
    ensures var c := B.Next(b, B.Write(me, op, now, fault));
            var reply := S.ReconcileReply(b.rows.tasks, candidate, expected, fault);
            && c.rows == b.rows.(tasks := S.ReconciledTasks(b.rows.tasks, candidate, expected, fault))
            && B.HoldOf(c, me) == (if op.ClaimRecovery? && reply == Ok(true) then B.Captured(candidate)
                                   else B.Captured(expected))
            && (reply == Ok(true) ==> S.Current(b.rows.tasks, expected) && candidate.id == expected.id
                                      && candidate.id in c.rows.tasks && c.rows.tasks[candidate.id] == candidate)
    ensures candidate.WellFormed() && candidate.id == expected.id
  {
    assert BI.HoldOk(b, B.HoldOf(b, me));
    TransitionIsSound(op, expected, now);
  }

  /** The step of a pause, spelled out. */
  lemma PauseStep(b: B.Business, me: ActorId, expected: TaskRow, approval: A.ApprovalRow, now: Time, fault: Fault)
    requires BI.Inv(b) && B.HoldOf(b, me) == B.Captured(expected)
    ensures var c := B.Next(b, B.Pause(me, approval, now, fault));
            var reply := PauseReply(b.rows, expected, approval, now, fault);
            && B.HoldOf(c, me) == B.Captured(expected)
            && c.rows == (match Transition(MarkWaiting, expected, now)
                          case Err(_) => b.rows
                          case Ok(waiting) => S.PausedRows(b.rows, waiting, approval, expected, fault))
            && (reply.Ok? ==> Paused(b.rows, c.rows, expected, approval, reply.value))
  {
    assert BI.HoldOk(b, B.HoldOf(b, me));
    if Transition(MarkWaiting, expected, now).Ok? {
      TransitionIsSound(MarkWaiting, expected, now);
    }
  }

  /** A refused pause has no text of its own and leaves no doubt about effects. */
  lemma PauseErrors(rows: S.Rows, expected: TaskRow, approval: A.ApprovalRow, now: Time, fault: Fault)
    ensures var reply := PauseReply(rows, expected, approval, now, fault);
            reply.Err? ==> SafeMessage(reply.error) == UNSPECIFIC && !Doubtful(reply.error)
  {
  }

  /** The step of a decision, spelled out. */
  lemma DecideStep(b: B.Business, me: ActorId, id: ApprovalId, approve: bool, decidedAt: Time, now: Time, fault: Fault)
    requires BI.Inv(b) && B.HoldOf(b, me) == B.Free
    ensures var c := B.Next(b, B.Decide(me, id, approve, decidedAt, now, fault));
            var reply := DecideReply(b.rows, id, approve, decidedAt, now, fault);
            && c.rows == (match B.Verdicts(b.rows, id, approve, decidedAt, now)
                          case Err(_) => b.rows
                          case Ok((approval, task)) => S.DecidedRows(b.rows, approval, task, fault))
            && (reply.Ok? ==> Settled(c.rows, id, approve, reply.value.0, reply.value.1)
                              && B.HoldOf(c, me) == if approve then B.Dispatching(id) else B.Free)
  {
    var reply := DecideReply(b.rows, id, approve, decidedAt, now, fault);
    if reply.Ok? {
      BI.VerdictsAreSound(b.rows, id, approve, decidedAt, now);
    }
  }

  /** A request that can be decided now. */
  predicate Decidable(rows: S.Rows, id: ApprovalId) {
    && id in rows.approvals && rows.approvals[id].status == A.PENDING && rows.approvals[id].taskId in rows.tasks
    && rows.tasks[rows.approvals[id].taskId].status == WAITING_APPROVAL
  }

  predicate InTime(rows: S.Rows, id: ApprovalId, decidedAt: Time, now: Time)
    requires Decidable(rows, id)
  {
    rows.approvals[id].createdAt <= decidedAt && rows.tasks[rows.approvals[id].taskId].updatedAt <= now
  }

  /** Each report of decide(), by all that must be the case for it. */
  lemma DecisionReports(b: B.Business, id: ApprovalId, approve: bool, decidedAt: Time, now: Time, fault: Fault)
    requires BI.Inv(b)
    ensures var rows, reply := b.rows, DecideReply(b.rows, id, approve, decidedAt, now, fault);
            && (reply == Err(ApprovalNotFound) <==> id !in rows.approvals)
            && (reply == Err(DecisionConflict) <==> id in rows.approvals && rows.approvals[id].status != A.PENDING)
            && (reply == Err(TaskContext) <==>
                  && id in rows.approvals && rows.approvals[id].status == A.PENDING
                  && rows.tasks[rows.approvals[id].taskId].status != WAITING_APPROVAL)
            && (reply == Err(ApprovalInvalid) <==> Decidable(rows, id) && decidedAt < rows.approvals[id].createdAt)
            && (reply == Err(TaskInvalid) <==>
                  && Decidable(rows, id) && rows.approvals[id].createdAt <= decidedAt
                  && now < rows.tasks[rows.approvals[id].taskId].updatedAt)
            && (reply == Err(DatabaseError) <==> Decidable(rows, id) && InTime(rows, id, decidedAt, now) && !fault.Fine?)
            && (reply.Ok? <==> Decidable(rows, id) && InTime(rows, id, decidedAt, now) && fault.Fine?)
            && (reply.Ok? ==>
                  && reply.value.0 == rows.approvals[id].(status := if approve then A.APPROVED else A.REJECTED,
                                                          decidedAt := Some(decidedAt))
                  && reply.value.1 == rows.tasks[rows.approvals[id].taskId].(
                       status := if approve then RUNNING else TaskStatus.REJECTED, updatedAt := now))
  {
    if Decidable(b.rows, id) && InTime(b.rows, id, decidedAt, now) {
      BI.VerdictsAreSound(b.rows, id, approve, decidedAt, now);
    }
  }

  /** Each report of a fenced write by the holder of a RUNNING Task. */
  lemma WriteReports(tasks: S.Tasks, expected: TaskRow, op: Operation, now: Time, fault: Fault)
    requires expected.WellFormed() && expected.status == RUNNING && B.Exit(op) && Worded(op)
    ensures var reply := WriteReply(tasks, expected, op, now, fault);
            var owned := expected.id in tasks && tasks[expected.id].status == RUNNING
                         && tasks[expected.id].updatedAt == expected.updatedAt;
            && (reply == Err(TaskInvalid) <==> now < expected.updatedAt)
            && (reply == Err(DatabaseError) <==> expected.updatedAt <= now && !fault.Fine?)
            && (reply == Err(OwnershipLost) <==> expected.updatedAt <= now && fault.Fine? && !owned)
            && (reply.Ok? <==> expected.updatedAt <= now && fault.Fine? && owned)
  {
    if expected.updatedAt <= now {
      TransitionIsSound(op, expected, now);
    }
  }

  /** Each report of a pause by the holder of a RUNNING Task that asks a new question of its own. */
  lemma PauseReports(rows: S.Rows, expected: TaskRow, approval: A.ApprovalRow, now: Time, fault: Fault)
    requires expected.WellFormed() && expected.status == RUNNING
    requires approval.taskId == expected.id && approval.status == A.PENDING && approval.decidedAt.None?
    ensures var reply := PauseReply(rows, expected, approval, now, fault);
            var owned := expected.id in rows.tasks && rows.tasks[expected.id].status == RUNNING
                         && rows.tasks[expected.id].updatedAt == expected.updatedAt;
            && (reply == Err(TaskInvalid) <==> now < expected.updatedAt)
            && (reply == Err(OwnershipLost) <==>
                  expected.updatedAt <= now && !fault.BodyError? && approval.id !in rows.approvals && !owned)
            && (reply == Err(DatabaseError) <==>
                  && expected.updatedAt <= now
                  && (fault.BodyError? || approval.id in rows.approvals || (fault.CommitLost? && owned)))
            && (reply.Ok? <==> expected.updatedAt <= now && fault.Fine? && approval.id !in rows.approvals && owned)
  {
    if expected.updatedAt <= now {
      TransitionIsSound(MarkWaiting, expected, now);
    }
  }

  /** What a continuation that holds a RUNNING Task reports: the error of the invocation or of its pause, unless a clock behind
      the Task forbids to record it. */
  lemma ContinuationReports(rows: S.Rows, expected: TaskRow, ending: Invoked, w: Weather)
    requires expected.WellFormed() && expected.status == RUNNING
    ensures var reply := ContinueReply(rows, expected, ending, w);
            match ending
            case Finished(content) => !Blank(content) ==>
              reply == WriteReply(rows.tasks, expected, Succeed(content), w.now, w.fault)
            case Asked(approval) =>
              var paused := PauseReply(rows, expected, approval, w.now, w.fault);
              && (paused.Ok? || paused == Err(OwnershipLost) || expected.updatedAt <= w.failNow ==> reply == paused)
              && (paused.Err? && paused != Err(OwnershipLost) && w.failNow < expected.updatedAt ==> reply == Err(TaskInvalid))
            case Raised(OwnershipLost) => reply == Err(OwnershipLost)
            case Raised(PersistenceUncertain) => reply == Err(PersistenceUncertain)
            case Raised(e) => reply == Err(if w.failNow < expected.updatedAt then TaskInvalid else e)
  {
  }

  /** Both rows show the decision. */
  predicate Settled(rows: S.Rows, id: ApprovalId, approve: bool, approval: A.ApprovalRow, task: TaskRow) {
    && id in rows.approvals && rows.approvals[id] == approval && approval.id == id && approval.taskId == task.id
    && approval.status == (if approve then A.APPROVED else A.REJECTED)
    && task.id in rows.tasks && rows.tasks[task.id] == task
    && task.status == (if approve then RUNNING else TaskStatus.REJECTED)
  }

  /** The pause moved the Task on from the expected generation and stored the question. */
  predicate Paused(before: S.Rows, after: S.Rows, expected: TaskRow, approval: A.ApprovalRow, waiting: TaskRow) {
    && S.Current(before.tasks, expected)
    && waiting.id == expected.id && waiting.status == WAITING_APPROVAL
    && waiting.id in after.tasks && after.tasks[waiting.id] == waiting
    && approval.id in after.approvals && after.approvals[approval.id] == approval
  }

  function Writing(me: ActorId, op: Operation, now: Time, fault: Fault): D.Step {
    D.OnBusiness(B.Write(me, op, now, fault))
  }

  /** The only steps of one continuation, in order; they depend on how the invocation ended and, after a
      request for approval, on whether the pause was refused. */
  function Exits(me: ActorId, invoked: Invoked, w: Weather, reply: Result<TaskRow>): seq<D.Step> {
    match invoked
    case Finished(content) => [Writing(me, Succeed(content), w.now, w.fault)]
    case Asked(approval) =>
      [D.OnBusiness(B.Pause(me, approval, w.now, w.fault))]
      + (if reply.Ok? || HandsOff(reply.error) then [] else [Writing(me, Fail(UNSPECIFIC), w.failNow, w.failFault)])
    case Raised(e) =>
      if HandsOff(e) then [] else [Writing(me, Marking(e), w.failNow, w.failFault)]
  }

  /** What a continuation may write, whatever it meets: a success only with the answer; after a request its pause, and at
      most one failure; nothing once ownership was lost or a commit is in doubt; never a failure while an effect is in
      doubt; and one failure, with a text, after any other error. */
  predicate Lawful(me: ActorId, own: seq<D.Step>, ending: Invoked, w: Weather) {
    match ending
    case Finished(content) => own == [D.OnBusiness(B.Write(me, Succeed(content), w.now, w.fault))]
    case Asked(approval) =>
      && 1 <= |own| <= 2 && own[0] == D.OnBusiness(B.Pause(me, approval, w.now, w.fault))
      && (|own| == 2 ==> Fails(me, own[1], w))
    case Raised(OwnershipLost) => own == []
    case Raised(PersistenceUncertain) => own == []
    case Raised(OutcomeUnknown) => own == [D.OnBusiness(B.Write(me, Operation.RequireRecovery, w.failNow, w.failFault))]
    case Raised(ReplayBlocked) => own == [D.OnBusiness(B.Write(me, Operation.RequireRecovery, w.failNow, w.failFault))]
    case Raised(_) => |own| == 1 && Fails(me, own[0], w)
  }

  /** A failure with a text of its own. */
  predicate Fails(me: ActorId, step: D.Step, w: Weather) {
    && step.OnBusiness? && step.business.Write? && step.business.op.Fail? && !Blank(step.business.op.message)
    && step == D.OnBusiness(B.Write(me, step.business.op, w.failNow, w.failFault))
  }

  lemma ExitsAreLawful(me: ActorId, ending: Invoked, w: Weather, reply: Result<TaskRow>)
    ensures Lawful(me, Exits(me, ending, w, reply), ending, w)
  {
    assert UNSPECIFIC[|UNSPECIFIC| - 1] == '.';
  }

  /** No fault, and clocks that are not behind the Task. */
  predicate Clear(w: Weather, updatedAt: Time) {
    updatedAt <= w.now && updatedAt <= w.failNow && w.fault.Fine? && w.failFault.Fine?
  }

  /** How an error is recorded on the row: recovery is required while an effect is in doubt, otherwise a failure with
      a text. */
  predicate MarkedFor(row: TaskRow, error: Error) {
    match error
    case OutcomeUnknown => row.status == TaskStatus.RECOVERY_REQUIRED && row.result.None? && row.error.None?
    case ReplayBlocked => row.status == TaskStatus.RECOVERY_REQUIRED && row.result.None? && row.error.None?
    case _ => row.status == FAILED && row.result.None? && row.error.Some? && !Blank(row.error.value)
  }

  /** The tables after a lifecycle write. */
  function WrittenRows(rows: S.Rows, expected: TaskRow, op: Operation, now: Time, fault: Fault): S.Rows {
    match Transition(op, expected, now)
    case Err(_) => rows
    case Ok(candidate) => rows.(tasks := S.ReconciledTasks(rows.tasks, candidate, expected, fault))
  }

  /** The tables after a pause. */
  function PausedRows(rows: S.Rows, expected: TaskRow, approval: A.ApprovalRow, now: Time, fault: Fault): S.Rows {
    match Transition(MarkWaiting, expected, now)
    case Err(_) => rows
    case Ok(waiting) => S.PausedRows(rows, waiting, approval, expected, fault)
  }

  /** The tables after one continuation that nobody disturbs. */
  function RowsAfter(rows: S.Rows, expected: TaskRow, ending: Invoked, w: Weather): S.Rows {
    match ending
    case Finished(content) => WrittenRows(rows, expected, Succeed(content), w.now, w.fault)
    case Asked(approval) =>
      var reply := PauseReply(rows, expected, approval, w.now, w.fault);
      var paused := PausedRows(rows, expected, approval, w.now, w.fault);
      if reply.Ok? || HandsOff(reply.error) then paused
      else WrittenRows(paused, expected, Marking(reply.error), w.failNow, w.failFault)
    case Raised(e) => if HandsOff(e) then rows else WrittenRows(rows, expected, Marking(e), w.failNow, w.failFault)
  }

  /** What they show of the Task, when nothing else goes wrong. */
  lemma RowsAfterShow(rows: S.Rows, expected: TaskRow, ending: Invoked, w: Weather)
    requires RunningIn(rows.tasks, expected.id) == Some(expected) && expected.WellFormed()
    requires Clear(w, expected.updatedAt)
    ensures EndsAs(rows, RowsAfter(rows, expected, ending, w), expected.id, ending)
  {
    match ending
    case Finished(content) =>
    case Asked(approval) => PauseShows(rows, expected, approval, w);
    case Raised(e) => if !HandsOff(e) { MarkingShows(rows, expected, e, w); }
  }

  lemma MarkingShows(rows: S.Rows, expected: TaskRow, error: Error, w: Weather)
    requires RunningIn(rows.tasks, expected.id) == Some(expected) && expected.WellFormed()
    requires Clear(w, expected.updatedAt)
    ensures var after := WrittenRows(rows, expected, Marking(error), w.failNow, w.failFault);
            expected.id in after.tasks && MarkedFor(after.tasks[expected.id], error)
  {
    MarkingIsAccepted(error, expected, w.failNow);
    MarkingMarks(error, expected, w.failNow);
    TransitionIsSound(Marking(error), expected, w.failNow);
  }

  lemma PauseShows(rows: S.Rows, expected: TaskRow, approval: A.ApprovalRow, w: Weather)
    requires RunningIn(rows.tasks, expected.id) == Some(expected) && expected.WellFormed()
    requires Clear(w, expected.updatedAt)
    ensures EndsAs(rows, RowsAfter(rows, expected, Asked(approval), w), expected.id, Asked(approval))
  {
    var reply := PauseReply(rows, expected, approval, w.now, w.fault);
    TransitionIsSound(MarkWaiting, expected, w.now);
    if reply.Err? {
      assert PausedRows(rows, expected, approval, w.now, w.fault) == rows;
      PauseErrors(rows, expected, approval, w.now, w.fault);
      MarkingShows(rows, expected, reply.error, w);
    }
  }

  lemma MarkingMarks(error: Error, row: TaskRow, now: Time)
    requires row.status == RUNNING && row.WellFormed() && Transition(Marking(error), row, now).Ok?
    ensures MarkedFor(Transition(Marking(error), row, now).value, error)
  {
  }

  /** The row of the Task after an undisturbed continuation, for each way the invocation ends. */
  predicate EndsAs(before: S.Rows, after: S.Rows, id: TaskId, ending: Invoked) {
    id in after.tasks &&
    var row := after.tasks[id];
    match ending
    case Finished(content) =>
      if Blank(content) then after.tasks == before.tasks else row.status == SUCCEEDED && row.result == Some(content)
    case Asked(approval) =>
      if approval.taskId == id && approval.status == A.PENDING && approval.decidedAt.None? && approval.id !in before.approvals
      then row.status == WAITING_APPROVAL && Find(after.approvals, approval.id) == Some(approval)
      else MarkedFor(row, DatabaseError)
    case Raised(OwnershipLost) => after == before
    case Raised(PersistenceUncertain) => after == before
    case Raised(e) => MarkedFor(row, e)
  }

  /** What a request for approval comes to, spelled out. */
  lemma AskOutcome(me: ActorId, rows: S.Rows, expected: TaskRow, approval: A.ApprovalRow, w: Weather,
                   reply: Result<TaskRow>)
    requires var paused := PauseReply(rows, expected, approval, w.now, w.fault);
             reply == if paused.Ok? || HandsOff(paused.error) then paused
                      else HandledReply(expected, paused.error, w.failNow)
    ensures var paused := PauseReply(rows, expected, approval, w.now, w.fault);
            && reply == ContinueReply(rows, expected, Asked(approval), w)
            && (reply.Ok? <==> paused.Ok?)
            && Exits(me, Asked(approval), w, reply) ==
                 [D.OnBusiness(B.Pause(me, approval, w.now, w.fault))]
                 + (if paused.Ok? || HandsOff(paused.error) then []
                    else [Writing(me, Fail(UNSPECIFIC), w.failNow, w.failFault)])
  {
  }

  /** A new Task: clock readings and faults up to its start. */
  datatype Birth = Birth(input: string, created: Time, updated: Time, createFault: Fault, startNow: Time,
                         startFault: Fault)
  {
    function Row(id: TaskId): TaskRow {
      TaskRow(id, TaskStatus.PENDING, input, None, None, created, updated)
    }

    /** The row that the start leaves. */
    function Started(id: TaskId): TaskRow {
      Row(id).(status := RUNNING, updatedAt := startNow)
    }

    predicate Starts() {
      created <= updated <= startNow && createFault.Fine? && startFault.Fine?
    }

    /** The steps before the continuation begins. */
    function Steps(me: ActorId, id: TaskId): seq<D.Step> {
      (if created <= updated then [D.OnBusiness(B.Create(me, id, input, created, updated, createFault))] else [])
      + (if created <= updated && createFault.Fine? then [D.OnBusiness(B.Launch(me, startNow, startFault))] else [])
    }
  }

  /** The single transaction of decide(): its verdict on the rows that it sees. */
  function DecideReply(rows: S.Rows, id: ApprovalId, approve: bool, decidedAt: Time, now: Time,
                       fault: Fault): Result<(A.ApprovalRow, TaskRow)> {
    match B.Verdicts(rows, id, approve, decidedAt, now)
    case Err(e) => Err(e)
    case Ok((approval, task)) =>
      match S.DecisionReply(rows, approval, task, fault)
      case Err(e) => Err(e)
      case Ok(accepted) => if accepted then Ok((approval, task)) else Err(DecisionConflict)
  }

  /** The approval is about this Task. */
  predicate Concerns(approvals: A.Approvals, id: ApprovalId, task: TaskId) {
    id in approvals && approvals[id].taskId == task
  }

  /** The first step of a resume: decide() accounts for its dispatch, an operator only reads the row. */
  function Opening(me: ActorId, hold: B.Hold, owned: Option<TaskRow>, id: TaskId): seq<D.Step> {
    if hold.Dispatching? then [D.OnBusiness(B.Dispatch(me))]
    else if owned.Some? then [D.OnBusiness(B.Capture(me, id))]
    else []
  }

  /** What follows an acknowledged approval: one dispatch and one continuation, or nothing that touches a table. */
  function Continuing(me: ActorId, resumes: bool, t: Taken, w: Weather): seq<D.Step> {
    if resumes then [D.OnBusiness(B.Dispatch(me))] + (if t.owned.Some? then Exits(me, t.visit.Ending(), w, t.reply)
                                                      else [])
    else [D.OnBusiness(B.Leave(me))]
  }

  lemma DispatchThenExits(own: seq<D.Step>, me: ActorId, t: Taken, w: Weather)
    ensures own + [D.OnBusiness(B.Dispatch(me))]
            + (if t.owned.Some? then Exits(me, t.visit.Ending(), w, t.reply) else [])
         == own + Continuing(me, true, t, w)
  {
  }

  lemma {:induction false} Regroup(a: seq<D.Step>, b: seq<D.Step>, c: seq<D.Step>)
    ensures a + b + c == a + (b + c)
  {
  }

  function Find<R>(rows: map<nat, R>, id: nat): Option<R> {
    if id in rows then Some(rows[id]) else None
  }

  class TaskExecutionService {
    const site: Site
    const me: ActorId
    const runtime: R.AgentRuntime

    constructor (site: Site, me: ActorId, runtime: R.AgentRuntime)
      ensures this.site == site && this.me == me && this.runtime == runtime
    {
      this.site, this.me, this.runtime := site, me, runtime;
    }

    function Hold(): B.Hold
      reads site
    {
      B.HoldOf(site.world.business, me)
    }

    /** Where this actor is in the ledger protocol; a continuation leaves that alone. */
    function Phase(): E.Phase
      reads site
    {
      E.PhaseOf(site.world.ledger, me)
    }

    /** This actor's own steps so far. */
    ghost function Own(): seq<D.Step>
      reads site
    {
      Mine(me, site.trace)
    }

    /** Nobody else takes part any more. */
    predicate Alone()
      reads site
    {
      site.others == []
    }

    /** The tables as they were before the last step of all. */
    ghost function Before(): S.Rows
      requires site.trace != []
      reads site
    {
      D.Run(site.modes, D.INITIAL, site.trace[..|site.trace| - 1]).business.rows
    }

    /** The tables as they were after the first n steps of all. */
    ghost function Seen(n: nat): S.Rows
      requires n <= |site.trace|
      reads site
    {
      D.Run(site.modes, D.INITIAL, site.trace[..n]).business.rows
    }

    lemma ShownNow()
      requires site.Valid()
      ensures Seen(|site.trace|) == site.world.business.rows
    {
      assert site.trace[..|site.trace|] == site.trace;
    }

    /** The tables at a moment of an earlier, shorter account. */
    lemma SeenStays(trace: seq<D.Step>, n: nat)
      requires n <= |trace| && trace <= site.trace
      ensures Seen(n) == D.Run(site.modes, D.INITIAL, trace[..n]).business.rows
      ensures n == |trace| ==> trace[..n] == trace
    {
      assert site.trace[..n] == trace[..n];
    }

    /** The last step of all is this actor's, and it moved the Task from the expected generation to this row. */
    ghost predicate JustMoved(expected: TaskRow, row: TaskRow)
      reads site
    {
      && site.trace != [] && By(me, Last(site.trace))
      && S.Current(Before().tasks, expected)
      && row.id == expected.id && row.id in site.world.business.rows.tasks
      && site.world.business.rows.tasks[row.id] == row
    }

    /** The others act. */
    method Interleave()
      requires site.Valid()
      modifies site, site.store, site.executions
      ensures site.Valid() && old(site.trace) <= site.trace && Own() == old(Own())
      ensures Hold() == old(Hold()) && Phase() == old(Phase())
      ensures old(Alone()) ==> Alone() && site.world == old(site.world) && site.trace == old(site.trace)
    {
      var batch := site.Others(me);
      MineConcat(me, old(site.trace), batch);
    }

    /** One more step of this actor, which the tables already show. */
    method Note(act: B.Action)
      requires act.actor == me && site.Accounted() && site.Shows(D.Next(site.modes, site.world, D.OnBusiness(act)))
      modifies site
      ensures site.Valid() && site.world.business == B.Next(old(site.world).business, act)
      ensures site.world.ledger == old(site.world).ledger
      ensures site.trace == old(site.trace) + [D.OnBusiness(act)] && Own() == old(Own()) + [D.OnBusiness(act)]
      ensures Before() == old(site.world).business.rows && Alone() == old(Alone())
    {
      site.Note(D.OnBusiness(act));
      assert site.trace[..|site.trace| - 1] == old(site.trace);
    }

    /** A conditional write of a candidate that a transition produced. */
    method Persist(candidate: TaskRow, expected: TaskRow, op: Operation, now: Time, fault: Fault)
      returns (reply: Result<bool>)
      requires site.Valid() && Hold() == B.Captured(expected) && B.Exit(op)
      requires Transition(op, expected, now) == Ok(candidate)
      modifies site, site.store
      ensures site.Valid() && site.trace == old(site.trace) + [Writing(me, op, now, fault)]
      ensures Own() == old(Own()) + [Writing(me, op, now, fault)]
      ensures Before() == old(site.world).business.rows
      ensures reply == S.ReconcileReply(Before().tasks, candidate, expected, fault)
      ensures site.world.business.rows == Before().(tasks := S.ReconciledTasks(Before().tasks, candidate, expected, fault))
      ensures reply == Ok(true) ==> JustMoved(expected, candidate)
      ensures Hold() == if op.ClaimRecovery? && reply == Ok(true) then B.Captured(candidate) else B.Captured(expected)
      ensures site.world.ledger == old(site.world).ledger && Alone() == old(Alone())
    {
      site.Reached();
      WriteStep(site.world.business, me, expected, candidate, op, now, fault);
      if op.Fail? {
        reply := site.store.SaveFailedIfRunning(candidate, expected, fault);
      } else {
        reply := site.store.ReconcileIfUnchanged(candidate, expected, fault);
      }
      Note(B.Write(me, op, now, fault));
    }

    /** A transition that is refused reaches no table. */
    method Refused(expected: TaskRow, op: Operation, now: Time, fault: Fault)
      requires site.Valid() && Hold() == B.Captured(expected) && B.Exit(op) && Transition(op, expected, now).Err?
      modifies site
      ensures site.Valid() && site.trace == old(site.trace) + [Writing(me, op, now, fault)]
      ensures Own() == old(Own()) + [Writing(me, op, now, fault)]
      ensures site.world == old(site.world) && site.trace != [] && Before() == site.world.business.rows
      ensures Alone() == old(Alone())
    {
      Note(B.Write(me, op, now, fault));
    }

    /** A call of the runtime changed no more than the workflow of this Task, and said what that shows. */
    twostate predicate Visits(task: TaskId, entry: Entry, o: Outside, v: Visit)
      reads runtime
    {
      runtime.Valid() && Visited(old(runtime.saved), runtime.saved, task, entry, runtime.maxSteps, o, v)
    }

    /** Run the invocation and record how it ended; only an acknowledged write of this call is reported as success. */
    method ContinueRunning(task: Task, entry: Entry, o: Outside, w: Weather)
      returns (reply: Result<TaskRow>, ghost met: nat, ghost v: Visit)
      requires site.Valid() && Hold() == B.Captured(task.Row()) && runtime.Valid()
      modifies site, site.store, site.executions, task, runtime
      ensures site.Valid() && old(site.trace) <= site.trace && Phase() == old(Phase())
      ensures |old(site.trace)| <= met <= |site.trace| && (old(Alone()) ==> Alone() && met == |old(site.trace)|)
      ensures old(task.status) != RUNNING ==> reply == Err(TaskInvalid) && Own() == old(Own()) && unchanged(runtime)
      ensures old(task.status) == RUNNING ==>
                Own() == old(Own()) + Exits(me, v.Ending(), w, reply)
                && RepliedAt(old(task.Row()), v.Ending(), w, reply, met)
                && Visits(task.id, entry, o, v)
      ensures reply.Ok? ==> Acknowledged(old(task.Row()), v.Ending(), reply.value)
      ensures old(task.status) == RUNNING ==> Lawful(me, Own()[|old(Own())|..], v.Ending(), w)
      ensures old(Alone() && RunningIn(site.store.tasks, task.id) == Some(task.Row()) && Clear(w, task.updatedAt)) ==>
                EndsAs(old(site.store.All()), site.store.All(), task.id, v.Ending())
    {
      met, v := |site.trace|, NO_VISIT;
      if task.status != RUNNING {
        return Err(TaskInvalid), met, v;
      }
      ghost var own := Own();
      reply, met, v := RunAndRecord(task, entry, o, w);
      ExitsAreLawful(me, v.Ending(), w, reply);
      assert Own()[|own|..] == Exits(me, v.Ending(), w, reply);
    }

    method RunAndRecord(task: Task, entry: Entry, o: Outside, w: Weather)
      returns (reply: Result<TaskRow>, ghost met: nat, ghost v: Visit)
      requires site.Valid() && Hold() == B.Captured(task.Row()) && runtime.Valid() && task.status == RUNNING
      modifies site, site.store, site.executions, task, runtime
      ensures site.Valid() && old(site.trace) <= site.trace && Phase() == old(Phase())
      ensures |old(site.trace)| <= met <= |site.trace| && (old(Alone()) ==> Alone() && met == |old(site.trace)|)
      ensures Own() == old(Own()) + Exits(me, v.Ending(), w, reply)
      ensures RepliedAt(old(task.Row()), v.Ending(), w, reply, met) && Visits(task.id, entry, o, v)
      ensures reply.Ok? ==> Acknowledged(old(task.Row()), v.Ending(), reply.value)
      ensures old(Alone() && RunningIn(site.store.tasks, task.id) == Some(task.Row()) && Clear(w, task.updatedAt)) ==>
                EndsAs(old(site.store.All()), site.store.All(), task.id, v.Ending())
    {
      var ending;
      ending, v := Invoke(runtime, task.id, entry, o);
      reply, met := RecordEnding(task, ending, w);
    }

    /** The others may have been at work while the runtime was. */
    method RecordEnding(task: Task, ending: Invoked, w: Weather) returns (reply: Result<TaskRow>, ghost met: nat)
      requires site.Valid() && Hold() == B.Captured(task.Row()) && task.status == RUNNING
      modifies site, site.store, site.executions, task
      ensures site.Valid() && old(site.trace) <= site.trace && Phase() == old(Phase())
      ensures |old(site.trace)| <= met <= |site.trace| && (old(Alone()) ==> Alone() && met == |old(site.trace)|)
      ensures Own() == old(Own()) + Exits(me, ending, w, reply)
      ensures RepliedAt(old(task.Row()), ending, w, reply, met)
      ensures reply.Ok? ==> Acknowledged(old(task.Row()), ending, reply.value)
      ensures old(Alone() && RunningIn(site.store.tasks, task.id) == Some(task.Row()) && Clear(w, task.updatedAt)) ==>
                EndsAs(old(site.store.All()), site.store.All(), task.id, ending)
    {
      ghost var rows, expected := site.store.All(), task.Row();
      SnapshotIsWellFormed();
      Interleave();
      met := |site.trace|;
      ghost var trace := site.trace;
      reply := Record(task, ending, w);
      SeenStays(trace, |trace|);
      if RunningIn(rows.tasks, expected.id) == Some(expected) && Clear(w, expected.updatedAt) {
        RowsAfterShow(rows, expected, ending, w);
      }
    }

    /** The reply is the one for the tables at the moment of the first transaction, if there is one. */
    ghost predicate RepliedAt(expected: TaskRow, invoked: Invoked, w: Weather, reply: Result<TaskRow>, met: nat)
      reads site
    {
      && met <= |site.trace| && reply == ContinueReply(Seen(met), expected, invoked, w)
      && (Exits(me, invoked, w, reply) != [] ==> met < |site.trace| && site.trace[met] == Exits(me, invoked, w, reply)[0])
    }

    /** The last step of all moved the Task from the expected generation to the ending of the invocation. */
    ghost predicate Acknowledged(expected: TaskRow, invoked: Invoked, row: TaskRow)
      reads site
    {
      && JustMoved(expected, row)
      && match invoked
         case Finished(content) => row.status == SUCCEEDED && row.result == Some(content)
         case Asked(approval) => row.status == WAITING_APPROVAL && approval.id in site.world.business.rows.approvals
                                 && site.world.business.rows.approvals[approval.id] == approval
         case Raised(_) => false
    }

    /** The ending of the invocation, written from here on. */
    method Record(task: Task, invoked: Invoked, w: Weather) returns (reply: Result<TaskRow>)
      requires site.Valid() && Hold() == B.Captured(task.Row()) && task.status == RUNNING
      modifies site, site.store, site.executions, task
      ensures site.Valid() && old(site.trace) <= site.trace && Phase() == old(Phase()) && (old(Alone()) ==> Alone())
      ensures reply == ContinueReply(old(site.world).business.rows, old(task.Row()), invoked, w)
      ensures Own() == old(Own()) + Exits(me, invoked, w, reply)
      ensures Exits(me, invoked, w, reply) != [] ==>
                |old(site.trace)| < |site.trace| && site.trace[|old(site.trace)|] == Exits(me, invoked, w, reply)[0]
      ensures reply.Ok? ==> Acknowledged(old(task.Row()), invoked, reply.value)
      ensures old(Alone()) ==> site.store.All() == RowsAfter(old(site.store.All()), old(task.Row()), invoked, w)
    {
      match invoked {
        case Finished(content) => reply := Conclude(task, content, w.now, w.fault);
        case Asked(approval) => reply := Ask(task, approval, w);
        case Raised(e) =>
          if HandsOff(e) {
            return Err(e);
          }
          reply := Handle(task, e, w);
      }
    }

    /** Pause; a refused pause is an error of the continuation like any other. */
    method Ask(task: Task, approval: A.ApprovalRow, w: Weather) returns (reply: Result<TaskRow>)
      requires site.Valid() && Hold() == B.Captured(task.Row()) && task.status == RUNNING
      modifies site, site.store, site.executions, task
      ensures site.Valid() && old(site.trace) < site.trace && Phase() == old(Phase()) && (old(Alone()) ==> Alone())
      ensures reply == ContinueReply(old(site.world).business.rows, old(task.Row()), Asked(approval), w)
      ensures reply.Ok? <==> PauseReply(old(site.world).business.rows, old(task.Row()), approval, w.now, w.fault).Ok?
      ensures Own() == old(Own()) + Exits(me, Asked(approval), w, reply)
      ensures site.trace[|old(site.trace)|] == D.OnBusiness(B.Pause(me, approval, w.now, w.fault))
      ensures reply.Ok? ==> Acknowledged(old(task.Row()), Asked(approval), reply.value)
      ensures old(Alone()) ==> site.store.All() == RowsAfter(old(site.store.All()), old(task.Row()), Asked(approval), w)
    {
      ghost var rows, expected := site.world.business.rows, task.Row();
      reply := Pause(task, approval, w);
      if !reply.Ok? && !HandsOff(reply.error) {
        reply := Refuse(task, reply.error, w);
      }
      AskOutcome(me, rows, expected, approval, w, reply);
    }

    /** The handler of a refused pause. */
    method Refuse(task: Task, error: Error, w: Weather) returns (reply: Result<TaskRow>)
      requires site.Valid() && Hold() == B.Captured(task.Row()) && task.status == RUNNING && !HandsOff(error)
      modifies site, site.store, site.executions, task
      ensures site.Valid() && old(site.trace) <= site.trace && Phase() == old(Phase()) && (old(Alone()) ==> Alone())
      ensures Own() == old(Own()) + [Writing(me, Marking(error), w.failNow, w.failFault)]
      ensures reply == HandledReply(old(task.Row()), error, w.failNow)
      ensures old(Alone()) ==>
                site.store.All() == WrittenRows(old(site.store.All()), old(task.Row()), Marking(error), w.failNow,
                                                w.failFault)
    {
      Interleave();
      reply := Handle(task, error, w);
    }

    /** task.succeed, then the fenced write; a refused write means that another owner took over. */
    method Conclude(task: Task, content: string, now: Time, fault: Fault) returns (reply: Result<TaskRow>)
      requires site.Valid() && Hold() == B.Captured(task.Row())
      modifies site, site.store, task
      ensures site.Valid() && site.world.ledger == old(site.world).ledger && Alone() == old(Alone())
      ensures site.trace == old(site.trace) + [Writing(me, Succeed(content), now, fault)]
      ensures Own() == old(Own()) + [Writing(me, Succeed(content), now, fault)]
      ensures reply == WriteReply(old(site.world).business.rows.tasks, old(task.Row()), Succeed(content), now, fault)
      ensures site.store.All() == WrittenRows(old(site.store.All()), old(task.Row()), Succeed(content), now, fault)
      ensures reply.Ok? ==> Acknowledged(old(task.Row()), Finished(content), reply.value)
    {
      var expected := task.Row();
      var failure := task.Succeed(content, now);
      if failure.Some? {
        Refused(expected, Operation.Succeed(content), now, fault);
        return Err(failure.value);
      }
      var accepted := Persist(task.Row(), expected, Operation.Succeed(content), now, fault);
      match accepted {
        case Err(e) => reply := Err(e);
        case Ok(true) => reply := Ok(task.Row());
        case Ok(false) => reply := Err(OwnershipLost);
      }
    }

    /** The waiting Task and its Approval in one transaction. */
    method Pause(task: Task, approval: A.ApprovalRow, w: Weather) returns (reply: Result<TaskRow>)
      requires site.Valid() && Hold() == B.Captured(task.Row()) && task.status == RUNNING
      modifies site, site.store
      ensures site.Valid() && Hold() == B.Captured(task.Row())
      ensures site.world.ledger == old(site.world).ledger && Alone() == old(Alone())
      ensures site.trace == old(site.trace) + [D.OnBusiness(B.Pause(me, approval, w.now, w.fault))]
      ensures Own() == old(Own()) + [D.OnBusiness(B.Pause(me, approval, w.now, w.fault))]
      ensures reply == PauseReply(old(site.world).business.rows, task.Row(), approval, w.now, w.fault)
      ensures site.store.All() == PausedRows(old(site.store.All()), task.Row(), approval, w.now, w.fault)
      ensures reply.Ok? ==> Acknowledged(task.Row(), Asked(approval), reply.value)
      ensures reply.Err? ==> SafeMessage(reply.error) == UNSPECIFIC && !Doubtful(reply.error)
    {
      site.Reached();
      var expected := task.Row();
      PauseStep(site.world.business, me, expected, approval, w.now, w.fault);
      PauseErrors(site.world.business.rows, expected, approval, w.now, w.fault);
      var waiting := new Task.Restore(task.Row());
      var failure := waiting.MarkWaitingApproval(w.now);
      if failure.None? {
        failure := site.store.SavePause(waiting.Row(), approval, expected, w.fault);
      }
      Note(B.Pause(me, approval, w.now, w.fault));
      match failure {
        case Some(e) => reply := Err(e);
        case None => reply := Ok(waiting.Row());
      }
    }

    /** The exception handlers: the original error is raised again, whether or not the write went through. */
    method Handle(task: Task, error: Error, w: Weather) returns (reply: Result<TaskRow>)
      requires site.Valid() && Hold() == B.Captured(task.Row()) && task.status == RUNNING && !HandsOff(error)
      modifies site, site.store, task
      ensures site.Valid() && site.world.ledger == old(site.world).ledger && Alone() == old(Alone())
      ensures site.trace == old(site.trace) + [Writing(me, Marking(error), w.failNow, w.failFault)]
      ensures Own() == old(Own()) + [Writing(me, Marking(error), w.failNow, w.failFault)]
      ensures reply == HandledReply(old(task.Row()), error, w.failNow)
      ensures site.store.All() == WrittenRows(old(site.store.All()), old(task.Row()), Marking(error), w.failNow,
                                              w.failFault)
    {
      var expected := task.Row();
      var failure := Mark(task, error, w.failNow);
      if failure.Some? {
        Refused(expected, Marking(error), w.failNow, w.failFault);
        return Err(failure.value);
      }
      var _ := Persist(task.Row(), expected, Marking(error), w.failNow, w.failFault);
      reply := Err(error);
    }

    lemma SnapshotIsWellFormed()
      requires site.Valid() && Hold().Captured?
      ensures Hold().row.WellFormed()
    {
      site.Reached();
      assert BI.HoldOk(site.world.business, Hold());
    }

    /** task.require_recovery or task.fail. */
    method Mark(task: Task, error: Error, now: Time) returns (failure: Option<Error>)
      requires task.status == RUNNING
      modifies task
      ensures Obeys(Marking(error), now, old(task.Row()), task.Row(), failure)
      ensures failure == if now < old(task.updatedAt) then Some(TaskInvalid) else None
    {
      MarkingIsAccepted(error, task.Row(), now);
      if Doubtful(error) {
        failure := task.RequireRecovery(now);
      } else {
        failure := task.Fail(SafeMessage(error), now);
      }
    }

    /** Create the Task, start it, then continue it; nothing is invoked before the start is committed. */
    method Execute(birth: Birth, o: Outside, w: Weather)
      returns (reply: Result<TaskRow>, id: TaskId, ghost met: nat, ghost v: Visit)
      requires site.Valid() && Hold() == B.Free && runtime.Valid()
      modifies site, site.store, site.executions, runtime
      ensures site.Valid() && old(site.trace) <= site.trace && id !in old(site.store.tasks)
      ensures Own() == old(Own()) + birth.Steps(me, id)
                       + (if birth.Starts() then Exits(me, v.Ending(), w, reply) else [])
      ensures !birth.Starts() ==> reply.Err? && unchanged(runtime)
      ensures birth.Starts() ==> |old(site.trace)| <= met && RepliedAt(birth.Started(id), v.Ending(), w, reply, met)
                                 && Visits(id, Fresh([G.User(birth.input)]), o, v)
      ensures reply.Ok? ==> Acknowledged(birth.Started(id), v.Ending(), reply.value)
    {
      met, v := 0, NO_VISIT;
      id := NewTaskId();
      var task, failure := Begin(birth, id);
      if failure.Some? {
        return Err(failure.value), id, met, v;
      }
      reply, met, v := ContinueRunning(task, Fresh([G.User(birth.input)]), o, w);
    }

    /** A fresh UUID: callers know no more than that nobody uses it. */
    method NewTaskId() returns (id: TaskId)
      ensures id !in site.store.tasks
    {
      id := 0;
      ghost var untried := site.store.tasks.Keys;
      while id in site.store.tasks
        invariant forall k | k in site.store.tasks && id <= k :: k in untried
        decreases untried
      {
        untried := untried - {id};
        id := id + 1;
      }
    }

    /** Both saves: the Task as PENDING, then as RUNNING. */
    method Begin(birth: Birth, id: TaskId) returns (task: Task, failure: Option<Error>)
      requires site.Valid() && Hold() == B.Free && id !in site.store.tasks
      modifies site, site.store, site.executions
      ensures site.Valid() && old(site.trace) <= site.trace && fresh(task)
      ensures Own() == old(Own()) + birth.Steps(me, id)
      ensures failure.None? <==> birth.Starts()
      ensures failure.None? ==> task.Row() == birth.Started(id) && Hold() == B.Captured(task.Row())
    {
      task := new Task.Restore(birth.Row(id));
      if birth.updated < birth.created {
        return task, Some(TaskInvalid);
      }
      failure := Create(task, birth, id);
      if failure.Some? {
        return;
      }
      ghost var created := Own();
      Interleave();
      failure := Launch(task, birth.startNow, birth.startFault);
      assert Own() == created + [D.OnBusiness(B.Launch(me, birth.startNow, birth.startFault))];
    }

    /** The first save. */
    method Create(task: Task, birth: Birth, id: TaskId) returns (failure: Option<Error>)
      requires site.Valid() && Hold() == B.Free && id !in site.store.tasks
      requires birth.created <= birth.updated && task.Row() == birth.Row(id)
      modifies site, site.store
      ensures site.Valid() && old(site.trace) <= site.trace
      ensures Own() == old(Own()) + [D.OnBusiness(B.Create(me, id, birth.input, birth.created, birth.updated,
                                                           birth.createFault))]
      ensures failure.None? <==> birth.createFault.Fine?
      ensures failure.None? ==> Hold() == B.Creating(task.Row())
    {
      failure := site.store.Save(task.Row(), birth.createFault);
      Note(B.Create(me, id, birth.input, birth.created, birth.updated, birth.createFault));
    }

    /** task.start, then the second save. */
    method Launch(task: Task, now: Time, fault: Fault) returns (failure: Option<Error>)
      requires site.Valid() && Hold() == B.Creating(task.Row())
      modifies site, site.store, task
      ensures site.Valid() && old(site.trace) <= site.trace
      ensures Own() == old(Own()) + [D.OnBusiness(B.Launch(me, now, fault))]
      ensures failure.None? <==> fault.Fine? && Transition(Start, old(task.Row()), now).Ok?
      ensures failure.None? ==>
                task.Row() == Transition(Start, old(task.Row()), now).value && Hold() == B.Captured(task.Row())
    {
      site.Reached();
      assert BI.HoldOk(site.world.business, Hold());
      failure := task.Start(now);
      if failure.None? {
        failure := site.store.Save(task.Row(), fault);
      }
      Note(B.Launch(me, now, fault));
    }

    /** The resume took over the row that was RUNNING when it read, and what followed is that of one continuation. */
    ghost predicate TookOver(id: TaskId, t: Taken, w: Weather)
      reads site
    {
      && t.read <= t.met <= |site.trace| && t.owned == RunningIn(Seen(t.read).tasks, id)
      && if t.owned.Some? then RepliedAt(t.owned.value, t.visit.Ending(), w, t.reply, t.met)
         else t.reply == Err(ResumeAuthorization)
    }

    /** The runtime was called if and only if there was a row to take over. */
    twostate predicate RuntimeCalled(id: TaskId, entry: Entry, o: Outside, t: Taken)
      reads runtime
    {
      if t.owned.Some? then Visits(id, entry, o, t.visit) else runtime.Valid() && unchanged(runtime)
    }

    /** The read is accounted for where it took place. */
    ghost predicate OpenedAt(hold: B.Hold, owned: Option<TaskRow>, read: nat, id: TaskId)
      reads site
    {
      Opening(me, hold, owned, id) != [] ==> read < |site.trace| && site.trace[read] == Opening(me, hold, owned, id)[0]
    }

    /** Take the RUNNING row as it is now and continue from it. */
    method Resume(id: TaskId, approval: ApprovalId, o: Outside, w: Weather)
      returns (reply: Result<TaskRow>, ghost t: Taken)
      requires site.Valid() && !Hold().Creating? && runtime.Valid()
      requires Hold().Dispatching? ==> Concerns(site.store.approvals, Hold().id, id)
      modifies site, site.store, site.executions, runtime
      ensures site.Valid() && old(site.trace) <= site.trace && Phase() == old(Phase())
      ensures RuntimeCalled(id, AtPause(approval), o, t)
      ensures Own() == old(Own()) + Opening(me, old(Hold()), t.owned, id)
                       + (if t.owned.Some? then Exits(me, t.visit.Ending(), w, reply) else [])
      ensures |old(site.trace)| <= t.read && t.reply == reply && TookOver(id, t, w)
      ensures OpenedAt(old(Hold()), t.owned, t.read, id)
      ensures old(Alone()) ==>
                Alone() && t.owned == RunningIn(old(site.store.tasks), id)
                && (t.owned.Some? ==> reply == ContinueReply(old(site.store.All()), t.owned.value, t.visit.Ending(), w))
      ensures t.owned.None? ==> id in site.store.tasks ==> site.store.tasks[id].status != RUNNING
      ensures t.owned.Some? ==> t.owned.value.id == id && t.owned.value.status == RUNNING
      ensures reply.Ok? ==> Acknowledged(t.owned.value, t.visit.Ending(), reply.value)
    {
      var owned; ghost var read;
      owned, read := TakeOver(id);
      reply, t := Err(ResumeAuthorization), Taken(owned, read, read, NO_VISIT, Err(ResumeAuthorization));
      assert Own() + [] == Own();
      if owned.Some? {
        ghost var trace, met, v := site.trace, 0, NO_VISIT;
        ShownNow();
        var task := new Task.Restore(owned.value);
        reply, met, v := ContinueRunning(task, AtPause(approval), o, w);
        t := Taken(owned, read, met, v, reply);
        SeenStays(trace, read);
        SeenStays(trace, |trace|);
      }
    }

    /** Others act, then the row is read; it is taken over when it is RUNNING. */
    method TakeOver(id: TaskId) returns (owned: Option<TaskRow>, ghost read: nat)
      requires site.Valid() && !Hold().Creating?
      requires Hold().Dispatching? ==> Concerns(site.store.approvals, Hold().id, id)
      modifies site, site.store, site.executions
      ensures site.Valid() && old(site.trace) <= site.trace && Phase() == old(Phase())
      ensures Own() == old(Own()) + Opening(me, old(Hold()), owned, id)
      ensures |old(site.trace)| <= read <= |site.trace| && owned == RunningIn(Seen(read).tasks, id)
      ensures OpenedAt(old(Hold()), owned, read, id)
      ensures owned == RunningIn(site.store.tasks, id)
      ensures owned.Some? ==> owned.value.id == id && Hold() == B.Captured(owned.value)
      ensures old(Alone()) ==> Alone() && site.store.All() == old(site.store.All())
    {
      InterleaveFor(id);
      ghost var trace := site.trace;
      ShownNow();
      owned := Reopen(id);
      read := |trace|;
      SeenStays(trace, read);
    }

    /** The others act; the request behind a dispatch stays what it is. */
    method InterleaveFor(id: TaskId)
      requires site.Valid() && (Hold().Dispatching? ==> Concerns(site.store.approvals, Hold().id, id))
      modifies site, site.store, site.executions
      ensures site.Valid() && old(site.trace) <= site.trace && Own() == old(Own())
      ensures Hold() == old(Hold()) && (Hold().Dispatching? ==> Concerns(site.store.approvals, Hold().id, id))
      ensures Phase() == old(Phase())
      ensures old(Alone()) ==> Alone() && site.world == old(site.world) && site.trace == old(site.trace)
    {
      ghost var trace, world := site.trace, site.world;
      Interleave();
      D.Longer(site.modes, trace, site.trace);
      assert D.Later(world, site.world);
    }

    /** Read the row and account for the read; nothing is owned unless it is RUNNING. */
    method Reopen(id: TaskId) returns (owned: Option<TaskRow>)
      requires site.Valid() && !Hold().Creating?
      requires Hold().Dispatching? ==> Concerns(site.store.approvals, Hold().id, id)
      modifies site
      ensures site.Valid() && Own() == old(Own()) + Opening(me, old(Hold()), owned, id)
      ensures site.trace == old(site.trace) + Opening(me, old(Hold()), owned, id)
      ensures owned == RunningIn(site.store.tasks, id)
      ensures owned.Some? ==> owned.value.id == id && Hold() == B.Captured(owned.value)
      ensures site.world.ledger == old(site.world).ledger && Alone() == old(Alone())
    {
      site.Reached();
      var found := site.store.GetTask(id);
      var running := found.Some? && found.value.status == RUNNING;
      owned := if running then found else None;
      if Hold().Dispatching? {
        Note(B.Dispatch(me));
      } else if running {
        Note(B.Capture(me, id));
      }
    }
  }

  class ApprovalDecisionService {
    const service: TaskExecutionService
    const resumes: bool                    // was a resume function given to this service?

    constructor (service: TaskExecutionService, resumes: bool)
      ensures this.service == service && this.resumes == resumes
    {
      this.service, this.resumes := service, resumes;
    }

    /** Reads, both transitions and both conditional updates, as one transaction. */
    method Settle(id: ApprovalId, approve: bool, decidedAt: Time, now: Time, fault: Fault)
      returns (reply: Result<(A.ApprovalRow, TaskRow)>)
      requires service.site.Valid() && service.Hold() == B.Free
      modifies service.site, service.site.store
      ensures service.site.Valid()
      ensures service.site.trace == old(service.site.trace)
                                    + [D.OnBusiness(B.Decide(service.me, id, approve, decidedAt, now, fault))]
      ensures service.Own() == old(service.Own())
                               + [D.OnBusiness(B.Decide(service.me, id, approve, decidedAt, now, fault))]
      ensures reply == DecideReply(old(service.site.world).business.rows, id, approve, decidedAt, now, fault)
      ensures reply.Ok? ==> Settled(service.site.world.business.rows, id, approve, reply.value.0, reply.value.1)
                            && service.Hold() == if approve then B.Dispatching(id) else B.Free
    {
      var store := service.site.store;
      service.site.Reached();
      DecideStep(service.site.world.business, service.me, id, approve, decidedAt, now, fault);
      var prepared := Prepare(id, approve, decidedAt, now);
      match prepared {
        case Err(e) => reply := Err(e);
        case Ok((approval, task)) =>
          var accepted := store.SaveDecision(approval, task, fault);
          match accepted {
            case Err(e) => reply := Err(e);
            case Ok(won) => reply := if won then Ok((approval, task)) else Err(DecisionConflict);
          }
      }
      service.Note(B.Decide(service.me, id, approve, decidedAt, now, fault));
    }

    /** Read both rows and move both objects; nothing is written yet. */
    method Prepare(id: ApprovalId, approve: bool, decidedAt: Time, now: Time)
      returns (reply: Result<(A.ApprovalRow, TaskRow)>)
      ensures reply == B.Verdicts(service.site.store.All(), id, approve, decidedAt, now)
    {
      var store := service.site.store;
      var found := store.GetApproval(id);
      if found.None? {
        return Err(ApprovalNotFound);
      }
      if found.value.status != A.PENDING {
        return Err(DecisionConflict);
      }
      var waiting := store.GetTask(found.value.taskId);
      if waiting.None? || waiting.value.status != WAITING_APPROVAL {
        return Err(TaskContext);
      }
      var approval := new A.Approval(found.value);
      var task := new Task.Restore(waiting.value);
      var failure: Option<Error>;
      if approve {
        failure := approval.Approve(decidedAt);
        if failure.None? { failure := task.ResumeApproved(now); }
      } else {
        failure := approval.Reject(decidedAt);
        if failure.None? { failure := task.MarkRejected(now); }
      }
      reply := if failure.Some? then Err(failure.value) else Ok((approval.Row(), task.Row()));
    }

    /** What follows the verdict of decide(): its report, and after an acknowledged approval one resume, from the row
        that was RUNNING at the moment of the dispatch. */
    ghost predicate Follows(verdict: Result<(A.ApprovalRow, TaskRow)>, approve: bool, reply: Result<A.ApprovalRow>,
                             t: Taken, w: Weather)
      reads service.site, service.site.store
    {
      match verdict
      case Err(e) => reply == Err(e)
      case Ok((approval, task)) =>
        && Find(service.site.store.approvals, approval.id) == Some(approval)
        && reply == (if approve && resumes && t.reply.Err? then Err(t.reply.error) else Ok(approval))
        && (!approve ==> Find(service.site.store.tasks, task.id) == Some(task))
        && (approve && resumes ==> Dispatched(task.id, t, w))
    }

    /** The runtime was called by a dispatched resume, if there was one and it took over the row, and by nothing
        else. */
    twostate predicate RuntimeCalledBy(dispatched: bool, task: TaskId, id: ApprovalId, o: Outside, t: Taken)
      reads service.runtime
    {
      service.RuntimeCalled(task, AtPause(id), o, if dispatched then t else UNTAKEN)
    }

    /** The dispatch is accounted for where the row was read. */
    ghost predicate Dispatched(id: TaskId, t: Taken, w: Weather)
      reads service.site
    {
      && t.read < |service.site.trace| && service.site.trace[t.read] == D.OnBusiness(B.Dispatch(service.me))
      && service.TookOver(id, t, w)
      && (t.reply.Ok? ==> service.Acknowledged(t.owned.value, t.visit.Ending(), t.reply.value))
    }

    /** Decide, and after an acknowledged approval resume the Task once. */
    method Decide(id: ApprovalId, approve: bool, decidedAt: Time, now: Time, fault: Fault, o: Outside, w: Weather)
      returns (reply: Result<A.ApprovalRow>, ghost at: nat, ghost t: Taken)
      requires service.site.Valid() && service.runtime.Valid() && service.Hold() == B.Free
      modifies service.site, service.site.store, service.site.executions, service.runtime
      ensures service.site.Valid() && old(service.site.trace) <= service.site.trace
      ensures |old(service.site.trace)| <= at < |service.site.trace|
      ensures service.site.trace[at] == D.OnBusiness(B.Decide(service.me, id, approve, decidedAt, now, fault))
      ensures var verdict := DecideReply(service.Seen(at), id, approve, decidedAt, now, fault);
              && service.Own() == old(service.Own())
                                  + [D.OnBusiness(B.Decide(service.me, id, approve, decidedAt, now, fault))]
                                  + (if verdict.Ok? && approve then Continuing(service.me, resumes, t, w) else [])
              && Follows(verdict, approve, reply, t, w)
              && (verdict.Ok? && approve && resumes ==> at < t.read)
              && RuntimeCalledBy(verdict.Ok? && approve && resumes, if verdict.Ok? then verdict.value.1.id
                                                                    else 0, id, o, t)
    {
      service.Interleave();
      at := |service.site.trace|;
      ghost var trace := service.site.trace;
      service.ShownNow();
      reply, t := DecideNext(id, approve, decidedAt, now, fault, o, w);
      service.SeenStays(trace, |trace|);
    }

    /** The decision itself is the next step of all. */
    method DecideNext(id: ApprovalId, approve: bool, decidedAt: Time, now: Time, fault: Fault, o: Outside, w: Weather)
      returns (reply: Result<A.ApprovalRow>, ghost t: Taken)
      requires service.site.Valid() && service.runtime.Valid() && service.Hold() == B.Free
      modifies service.site, service.site.store, service.site.executions, service.runtime
      ensures service.site.Valid() && old(service.site.trace) < service.site.trace
      ensures service.site.trace[|old(service.site.trace)|] ==
                D.OnBusiness(B.Decide(service.me, id, approve, decidedAt, now, fault))
      ensures var verdict := DecideReply(old(service.site.world).business.rows, id, approve, decidedAt, now, fault);
              && service.Own() == old(service.Own())
                                  + [D.OnBusiness(B.Decide(service.me, id, approve, decidedAt, now, fault))]
                                  + (if verdict.Ok? && approve then Continuing(service.me, resumes, t, w) else [])
              && Follows(verdict, approve, reply, t, w)
              && (verdict.Ok? && approve && resumes ==> |old(service.site.trace)| < t.read)
              && RuntimeCalledBy(verdict.Ok? && approve && resumes, if verdict.Ok? then verdict.value.1.id
                                                                    else 0, id, o, t)
    {
      var settled := Settle(id, approve, decidedAt, now, fault);
      reply, t := FollowUp(settled, id, approve, o, w);
    }

    /** What the verdict of the decision leads to. */
    method FollowUp(verdict: Result<(A.ApprovalRow, TaskRow)>, id: ApprovalId, approve: bool, o: Outside, w: Weather)
      returns (reply: Result<A.ApprovalRow>, ghost t: Taken)
      requires service.site.Valid() && service.runtime.Valid()
      requires verdict.Ok? ==>
                 && Settled(service.site.world.business.rows, id, approve, verdict.value.0, verdict.value.1)
                 && service.Hold() == if approve then B.Dispatching(id) else B.Free
      modifies service.site, service.site.store, service.site.executions, service.runtime
      ensures service.site.Valid() && old(service.site.trace) <= service.site.trace
      ensures service.Own() == old(service.Own())
                               + (if verdict.Ok? && approve then Continuing(service.me, resumes, t, w) else [])
      ensures Follows(verdict, approve, reply, t, w)
      ensures verdict.Ok? && approve && resumes ==> |old(service.site.trace)| <= t.read
      ensures RuntimeCalledBy(verdict.Ok? && approve && resumes, if verdict.Ok? then verdict.value.1.id
                                                                 else 0, id, o, t)
    {
      t := UNTAKEN;
      assert service.Own() + [] == service.Own();
      match verdict {
        case Err(e) => reply := Err(e);
        case Ok((approval, task)) =>
          reply := Ok(approval);
          if approve {
            reply, t := Continue(approval, task, o, w);
          }
      }
    }

    /** After an approval: the resume, when this service has one. */
    method Continue(approval: A.ApprovalRow, task: TaskRow, o: Outside, w: Weather)
      returns (reply: Result<A.ApprovalRow>, ghost t: Taken)
      requires service.site.Valid() && service.runtime.Valid() && service.Hold() == B.Dispatching(approval.id)
      requires Settled(service.site.world.business.rows, approval.id, true, approval, task)
      modifies service.site, service.site.store, service.site.executions, service.runtime
      ensures service.site.Valid() && old(service.site.trace) <= service.site.trace
      ensures service.Own() == old(service.Own()) + Continuing(service.me, resumes, t, w)
      ensures Find(service.site.store.approvals, approval.id) == Some(approval)
      ensures reply == if resumes && t.reply.Err? then Err(t.reply.error) else Ok(approval)
      ensures resumes ==> |old(service.site.trace)| <= t.read && Dispatched(task.id, t, w)
      ensures resumes ==> service.RuntimeCalled(task.id, AtPause(approval.id), o, t)
      ensures !resumes ==> unchanged(service.runtime)
    {
      if resumes {
        reply, t := Dispatch(approval, task, o, w);
      } else {
        reply, t := Ok(approval), UNTAKEN;
        LeaveOff();
      }
    }

    /** Without a resume the decision is all there is. */
    method LeaveOff()
      requires service.site.Valid()
      modifies service.site
      ensures service.site.Valid() && old(service.site.trace) <= service.site.trace
      ensures service.Own() == old(service.Own()) + [D.OnBusiness(B.Leave(service.me))]
    {
      service.Note(B.Leave(service.me));
    }

    /** The resume of a decision that is committed and acknowledged; its errors reach the caller of decide(). */
    method Dispatch(approval: A.ApprovalRow, task: TaskRow, o: Outside, w: Weather)
      returns (reply: Result<A.ApprovalRow>, ghost t: Taken)
      requires service.site.Valid() && service.runtime.Valid() && service.Hold() == B.Dispatching(approval.id)
      requires Settled(service.site.world.business.rows, approval.id, true, approval, task)
      modifies service.site, service.site.store, service.site.executions, service.runtime
      ensures service.site.Valid() && old(service.site.trace) <= service.site.trace
      ensures service.Own() == old(service.Own()) + Continuing(service.me, true, t, w)
      ensures Find(service.site.store.approvals, approval.id) == Some(approval)
      ensures reply == if t.reply.Ok? then Ok(approval) else Err(t.reply.error)
      ensures |old(service.site.trace)| <= t.read && Dispatched(task.id, t, w)
      ensures service.RuntimeCalled(task.id, AtPause(approval.id), o, t)
    {
      ghost var trace, world, own := service.site.trace, service.site.world, service.Own();
      var continued;
      continued, t := service.Resume(task.id, approval.id, o, w);
      DispatchThenExits(own, service.me, t, w);
      D.Longer(service.site.modes, trace, service.site.trace);
      assert D.Later(world, service.site.world);
      reply := if continued.Ok? then Ok(approval) else Err(continued.error);
    }
  }
}
