/** The execution ledger as a protocol: any number of actors run execute() and recover() on the
    same table, one atomic step at a time, and may crash or lose an acknowledgement at any step
    (backend/app/approved_execution.py, backend/app/executions/recovery.py). */
module ExecutionProtocol {
  import opened Values
  import opened LedgerModel
  import opened ApprovalModel

  type Modes = string -> IdempotencyMode

  datatype Entry = Execute | Recover(staleBefore: Time)

  datatype Request = Request(entry: Entry, approval: ApprovalId, task: TaskId, call: ToolCall) {
    function SlotOf(): Slot {
      Slot(task, call.id)
    }
  }

  datatype Outcome = Content(text: string) | NoEffect | Unsure | OtherError

  datatype Reply = Returned(call: ToolCall, content: string) | Raised(error: Error)

  /** Where an actor is, with the local variables the code still uses there. */
  datatype Phase =
    | Idle
    | Entered(req: Request)                          // about to validate
    | Authorized(req: Request)                       // validated, about to read the ledger
    | Missing(req: Request)                          // no row was read, about to claim
    | Stale(req: Request, expected: ToolExecution)   // an abandoned row was read, about to reclaim
    | Holding(row: ToolExecution)                    // claim committed, the tool not called yet
    | Called(row: ToolExecution, outcome: Outcome)   // the tool was called, result not written
    | Done(reply: Reply)

  /** One call of the tool. */
  datatype Invocation = Invocation(
    generation: Time, row: ExecutionId, key: Option<ExecutionId>, approval: ApprovalId, call: ToolCall)

  /** The table, and observations of it that never influence a step. */
  datatype Core = Core(
    rows: Ledger,
    issued: map<Slot, seq<Time>>,          // generations of committed claims
    invoked: map<Slot, seq<Invocation>>,   // calls of the tool
    settled: map<Slot, seq<Time>>,         // generations that received a terminal write
    returned: map<Slot, seq<string>>)      // contents handed back to callers

  datatype State = State(core: Core, phases: map<ActorId, Phase>)

  const EMPTY := State(Core(map[], map[], map[], map[], map[]), map[])

  datatype Action =
    | Begin(actor: ActorId, req: Request)
    | Validate(actor: ActorId, permitted: bool)
    | Read(actor: ActorId, registered: bool, inputValid: bool)
    | Claim(actor: ActorId, id: ExecutionId, created: Time, updated: Time, fault: Fault)
    | Reclaim(actor: ActorId, now: Time, fault: Fault)
    | Invoke(actor: ActorId, outcome: Outcome)
    | Finish(actor: ActorId, now: Time, fault: Fault)
    | Crash(actor: ActorId)

  function PhaseOf(s: State, a: ActorId): Phase {
    if a in s.phases then s.phases[a] else Idle
  }

  function Enter(s: State, a: ActorId, p: Phase): State {
    s.(phases := s.phases[a := p])
  }

  /** The row was claimed under this approval for exactly this call. */
  predicate Matches(row: ToolExecution, req: Request) {
    && row.taskId == req.task && row.callId == req.call.id && row.approvalId == req.approval
    && row.toolName == req.call.name && row.arguments == req.call.arguments
  }

  /** A cached result, or the reason why there is none. */
  function Replay(row: ToolExecution, req: Request): Reply {
    if !Matches(row, req) then Raised(IdentityConflict)
    else if row.status.SUCCEEDED? && row.result.Some? then Returned(row.Call(), row.result.value)
    else if row.status.UNKNOWN? then Raised(OutcomeUnknown)
    else Raised(ReplayBlocked)
  }

  /** The content, if any, reaches the caller. */
  function Answered(c: Core, slot: Slot, reply: Reply): Core {
    match reply
    case Returned(_, content) => c.(returned := Append(c.returned, slot, content))
    case Raised(_) => c
  }

  function Answer(s: State, a: ActorId, slot: Slot, reply: Reply): State {
    Enter(s.(core := Answered(s.core, slot, reply)), a, Done(reply))
  }

  function AfterRead(modes: Modes, s: State, a: ActorId, req: Request, registered: bool, inputValid: bool): State {
    var found := Lookup(s.core.rows, req.SlotOf());
    match req.entry
    case Execute =>
      if found.Some? then Answer(s, a, req.SlotOf(), Replay(found.value, req))
      else if !registered then Enter(s, a, Done(Raised(ToolNotFound)))
      else if !inputValid then Enter(s, a, Done(Raised(InvalidInput)))
      else Enter(s, a, Missing(req))
    case Recover(staleBefore) =>
      if found.None? then Enter(s, a, Done(Raised(ReplayBlocked)))
      else if !Matches(found.value, req) then Enter(s, a, Done(Raised(IdentityConflict)))
      else if found.value.status.SUCCEEDED? then Enter(s, a, Entered(req.(entry := Execute)))
      else if found.value.updatedAt > staleBefore then Enter(s, a, Done(Raised(ReplayBlocked)))
      else if !registered then Enter(s, a, Done(Raised(ToolNotFound)))
      else if modes(req.call.name).NONE? then Enter(s, a, Done(Raised(ReplayBlocked)))
      else Enter(s, a, Stale(req, found.value))
  }

  function ClaimCore(c: Core, candidate: ToolExecution, fault: Fault): Core {
    var rows := ClaimedTable(c.rows, candidate, fault);
    if rows == c.rows then c
    else c.(rows := rows, issued := Append(c.issued, candidate.SlotOf(), candidate.updatedAt))
  }

  function AfterClaim(s: State, a: ActorId, req: Request, candidate: ToolExecution, fault: Fault): State {
    var t := s.(core := ClaimCore(s.core, candidate, fault));
    match ClaimReply(s.core.rows, candidate, fault)
    case Err(e) => Enter(t, a, Done(Raised(e)))
    case Ok(Claimed(row, won)) => if won then Enter(t, a, Holding(row))
                                  else Answer(t, a, row.SlotOf(), Replay(row, req))
  }

  function ReclaimCore(c: Core, expected: ToolExecution, staleBefore: Time, now: Time, fault: Fault): Core {
    var rows := ReclaimedTable(c.rows, expected, staleBefore, now, fault);
    if rows == c.rows then c
    else c.(rows := rows, issued := Append(c.issued, expected.SlotOf(), Max(now, expected.updatedAt + 1)))
  }

  function AfterReclaim(s: State, a: ActorId, expected: ToolExecution, staleBefore: Time, now: Time,
                        fault: Fault): State {
    var t := s.(core := ReclaimCore(s.core, expected, staleBefore, now, fault));
    match ReclaimReply(s.core.rows, expected, staleBefore, now, fault)
    case Err(e) => Enter(t, a, Done(Raised(e)))
    case Ok(None) => Enter(t, a, Done(Raised(ReplayBlocked)))
    case Ok(Some(row)) => Enter(t, a, Holding(row))
  }

  /** The tool is told its key exactly in EXTERNAL_KEY mode. */
  function InvocationOf(modes: Modes, row: ToolExecution): Invocation {
    Invocation(row.updatedAt, row.id, if modes(row.toolName).EXTERNAL_KEY? then Some(row.key)
                                      else None, row.approvalId, row.Call())
  }

  function InvokeCore(modes: Modes, c: Core, row: ToolExecution): Core {
    c.(invoked := Append(c.invoked, row.SlotOf(), InvocationOf(modes, row)))
  }

  /** The terminal row for what the tool reported. */
  function Verdict(row: ToolExecution, outcome: Outcome, now: Time): Result<ToolExecution> {
    match outcome
    case Content(text) => row.Finish(SUCCEEDED, Some(text), None, now)
    case NoEffect => row.Finish(FAILED, None, Some("known_no_effect"), now)
    case Unsure => row.Finish(UNKNOWN, None, Some("outcome_unknown"), now)
    case OtherError => row.Finish(UNKNOWN, None, Some("outcome_unknown"), now)
  }

  /** What the caller sees, given whether the terminal write failed. */
  function FinalReply(row: ToolExecution, outcome: Outcome, failure: Option<Error>): Reply {
    match outcome
    case Content(text) => if failure.Some? then Raised(failure.value) else Returned(row.Call(), text)
    case NoEffect => Raised(FailedWithoutEffect)
    case Unsure => Raised(OutcomeUnknown)
    case OtherError => if failure.Some? then Raised(ToolFailed) else Raised(OutcomeUnknown)
  }

  function FinishCore(c: Core, candidate: ToolExecution, generation: Time, fault: Fault): Core {
    var rows := FinishedTable(c.rows, candidate, Some(generation), fault);
    if rows == c.rows then c
    else c.(rows := rows, settled := Append(c.settled, candidate.SlotOf(), generation))
  }

  function AfterFinish(s: State, a: ActorId, row: ToolExecution, outcome: Outcome, now: Time, fault: Fault): State {
    match Verdict(row, outcome, now)
    case Err(e) => Enter(s, a, Done(FinalReply(row, outcome, Some(e))))
    case Ok(candidate) =>
      var failure := FinishError(s.core.rows, candidate, Some(row.updatedAt), fault);
      Answer(s.(core := FinishCore(s.core, candidate, row.updatedAt, fault)), a, row.SlotOf(),
             FinalReply(row, outcome, failure))
  }

  /** One atomic step; a step that its actor cannot take changes nothing. */
  function Next(modes: Modes, approvals: Approvals, s: State, act: Action): State {
    var a := act.actor;
    match (act, PhaseOf(s, a))
    case (Begin(_, req), Idle) => Enter(s, a, Entered(req))
    case (Begin(_, req), Done(_)) => Enter(s, a, Entered(req))
    case (Validate(_, permitted), Entered(req)) =>
      if !permitted then Enter(s, a, Done(Raised(PermissionDenied)))
      else if Authorizes(approvals, req.approval, req.task, req.call) then Enter(s, a, Authorized(req))
      else Enter(s, a, Done(Raised(ResumeAuthorization)))
    case (Read(_, registered, inputValid), Authorized(req)) => AfterRead(modes, s, a, req, registered, inputValid)
    case (Claim(_, id, created, updated, fault), Missing(req)) =>
      AfterClaim(s, a, req, Candidate(id, req.task, req.approval, req.call, created, updated), fault)
    case (Reclaim(_, now, fault), Stale(req, expected)) =>
      if req.entry.Recover? then AfterReclaim(s, a, expected, req.entry.staleBefore, now, fault) else s
    case (Invoke(_, outcome), Holding(row)) =>
      Enter(s.(core := InvokeCore(modes, s.core, row)), a, Called(row, outcome))
    case (Finish(_, now, fault), Called(row, outcome)) => AfterFinish(s, a, row, outcome, now, fault)
    case (Crash(_), _) => Enter(s, a, Idle)
    case _ => s
  }
}
