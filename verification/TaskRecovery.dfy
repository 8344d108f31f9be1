/** Operator recovery as sequential code among other actors (backend/app/tasks/recovery.py). */
module TaskRecovery {
  import opened Values
  import opened TaskModel
  import A = ApprovalModel
  import L = LedgerModel
  import S = BusinessStore
  import B = BusinessProtocol
  import E = ExecutionProtocol
  import D = Deployment
  import R = AgentRuntime
  import X = ApprovedExecution
  import opened AgentGraph
  import opened Invocations
  import opened RecoveryRules
  import opened Site
  import opened TaskServices

  datatype RecoveryOutcome = RECOVERED | NO_ACTION | STILL_IN_PROGRESS | RECOVERY_REQUIRED | ORPHAN_CHECKPOINT

  /** What one recovery meets outside: checkpoints, clock readings, faults, and how the tool and the runtime end. */
  datatype Circumstances = Circumstances(
    evidence: R.Evidence, evidenceAfterClaim: R.Evidence, clock: Time, staleAfter: nat,
    writeNow: Time, writeFault: Fault, requiredNow: Time, requiredFault: Fault,
    tool: X.Conditions, outside: Outside, weather: Weather)

  /** When, in the trace, the Task, the ledger rows and the Approvals were read, and when the reading was complete. */
  datatype Moments = Moments(task: nat, rows: nat, approvals: nat, decided: nat)

  /** The world after the first n steps of a trace. */
  function Moment(modes: E.Modes, trace: seq<D.Step>, n: nat): D.World
    requires n <= |trace|
  {
    D.Run(modes, D.INITIAL, trace[..n])
  }

  /** Each part of the reading was the content of its table at its moment. */
  ghost predicate ReadAt(modes: E.Modes, trace: seq<D.Step>, id: TaskId, r: Reading, at: Moments) {
    && at.task <= at.rows <= at.approvals <= at.decided <= |trace|
    && r.task == Find(Moment(modes, trace, at.task).business.rows.tasks, id)
    && r.rows == Moment(modes, trace, at.rows).ledger.core.rows
    && r.approvals == Moment(modes, trace, at.approvals).business.rows.approvals
  }

  predicate SameTables(before: D.World, after: D.World) {
    after.business.rows == before.business.rows && after.ledger == before.ledger
  }

  /** Nobody wrote during the reading: it shows one state of the tables. */
  predicate Untouched(before: D.World, after: D.World, id: TaskId, r: Reading) {
    && SameTables(before, after)
    && r.task == Find(before.business.rows.tasks, id)
    && r.rows == before.ledger.core.rows && r.approvals == before.business.rows.approvals
  }

  lemma {:induction false} MomentStays(modes: E.Modes, trace: seq<D.Step>, longer: seq<D.Step>, n: nat)
    requires n <= |trace| && trace <= longer
    ensures Moment(modes, longer, n) == Moment(modes, trace, n)
  {
    assert longer[..n] == trace[..n];
  }

  /** The listed rows of a Task answer the questions that recovery asks of the whole ledger. */
  lemma ListingSuffices(rows: L.Ledger, task: TaskId, listed: L.Ledger, cutoff: Time, call: string)
    requires listed == map slot | slot in rows && slot.task == task :: rows[slot]
    ensures LiveRow(listed, task, cutoff) <==> LiveRow(rows, task, cutoff)
    ensures L.Lookup(listed, L.Slot(task, call)) == L.Lookup(rows, L.Slot(task, call))
  {
    if LiveRow(rows, task, cutoff) {
      var slot :| slot in rows && slot.task == task && rows[slot].updatedAt > cutoff;
      assert slot in listed;
    }
  }

  /** The evidence has to be looked into. */
  predicate Open(id: TaskId, found: Option<TaskRow>, evidence: R.Evidence, cutoff: Time) {
    && found.Some? && evidence.Evidence? && evidence.checkpoint.state.taskId == id
    && found.value.status in {RUNNING, WAITING_APPROVAL, TaskStatus.RECOVERY_REQUIRED}
    && !(found.value.status == RUNNING && found.value.updatedAt > cutoff)
  }

  lemma OpenGoesOn(id: TaskId, r: Reading, capability: Capability)
    requires Open(id, r.task, r.evidence, r.cutoff)
    ensures Classify(id, r, capability) == ClassifyOpen(id, r.task.value, r.evidence.checkpoint, r, capability)
  {
  }

  /** Handing a Task over always moves its generation on. */
  function RequiredAt(task: TaskRow, now: Time): Time {
    Max(now, task.updatedAt + 1)
  }

  predicate Handed(task: TaskRow) {
    task.status == RUNNING || task.status == WAITING_APPROVAL
  }

  /** The Task write of a decision that needs no claim. */
  function Answering(me: ActorId, d: Decision, task: Option<TaskRow>, c: Circumstances): seq<D.Step> {
    if task.None? then []
    else
      match d
      case Review(_) =>
        if Handed(task.value) then [Writing(me, RequireRecovery, RequiredAt(task.value, c.requiredNow), c.requiredFault)] else []
      case Conclude(answer) => [Writing(me, Succeed(answer), c.writeNow, c.writeFault)]
      case _ => []
  }

  /** An attempt that was started and never finished. */
  predicate LeftOpen(execution: Option<L.ToolExecution>) {
    execution.Some? && (execution.value.status == L.EXECUTING || execution.value.status == L.UNKNOWN)
  }

  /** The report on a Task that is handed over, given the table that the write met. */
  function RequiredReply(tasks: S.Tasks, task: TaskRow, orphan: bool, now: Time,
                         fault: Fault): Result<RecoveryOutcome> {
    var done := if orphan then ORPHAN_CHECKPOINT else RecoveryOutcome.RECOVERY_REQUIRED;
    if !Handed(task) then Ok(done)
    else
      match WriteReply(tasks, task, RequireRecovery, RequiredAt(task, now), fault)
      case Ok(_) => Ok(done)
      case Err(OwnershipLost) => Ok(STILL_IN_PROGRESS)
      case Err(e) => Err(e)
  }

  /** The report on a workflow that had already ended. */
  function ConcludeReply(tasks: S.Tasks, task: TaskRow, answer: string, now: Time,
                         fault: Fault): Result<RecoveryOutcome> {
    match WriteReply(tasks, task, Succeed(answer), now, fault)
    case Ok(_) => Ok(RECOVERED)
    case Err(OwnershipLost) => Ok(STILL_IN_PROGRESS)
    case Err(e) => Err(e)
  }

  /** The report on a fenced write: done, or another owner took over. */
  function WriteReport(accepted: Result<bool>, done: RecoveryOutcome): Result<RecoveryOutcome> {
    match accepted
    case Err(e) => Err(e)
    case Ok(won) => Ok(if won then done else STILL_IN_PROGRESS)
  }

  lemma RequiredReport(tasks: S.Tasks, task: TaskRow, candidate: TaskRow, orphan: bool, now: Time, fault: Fault)
    requires Handed(task) && Transition(RequireRecovery, task, RequiredAt(task, now)) == Ok(candidate)
    ensures RequiredReply(tasks, task, orphan, now, fault) ==
              WriteReport(S.ReconcileReply(tasks, candidate, task, fault),
                          if orphan then ORPHAN_CHECKPOINT else RecoveryOutcome.RECOVERY_REQUIRED)
  {
  }

  lemma ConcludeReport(tasks: S.Tasks, task: TaskRow, answer: string, now: Time, fault: Fault)
    ensures ConcludeReply(tasks, task, answer, now, fault) ==
              match Transition(Succeed(answer), task, now)
              case Err(e) => Err(e)
              case Ok(candidate) => WriteReport(S.ReconcileReply(tasks, candidate, task, fault), RECOVERED)
  {
  }

  /** A move of a Task row: the generation that a write expected, and the row that it left. */
  datatype Move = Move(expected: TaskRow, row: TaskRow)

  function Cutoff(c: Circumstances): Time {
    c.clock - c.staleAfter
  }

  /** The recovery attempt on an abandoned call: none, or one that went this far along its script. */
  datatype Redo = NoRedo | Redo(cached: bool, taken: nat)

  function Attempt(me: ActorId, approval: ApprovalId, id: TaskId, call: ToolCall, cached: bool,
                   c: Circumstances): seq<D.Step> {
    [D.OnLedger(E.Begin(me, E.Request(E.Recover(Cutoff(c)), approval, id, call)))] + X.RecoverScript(me, c.tool, cached)
  }

  /** Its steps: for this Approval, this call and this cutoff. */
  function Redone(me: ActorId, redo: Redo, approval: ApprovalId, id: TaskId, call: ToolCall,
                  c: Circumstances): (steps: seq<D.Step>)
    ensures forall step | step in steps :: step.OnLedger?
  {
    if redo.NoRedo? then []
    else
      var attempt := Attempt(me, approval, id, call, redo.cached, c);
      assert forall step | step in attempt :: step.OnLedger?;
      attempt[..if redo.taken < |attempt| then redo.taken + 1 else |attempt|]
  }

  /** A dispatched Task with an abandoned attempt goes through the ledger first, and no other one does. */
  predicate RedoFits(redo: Redo, d: Decision, ending: Ending) {
    redo.Redo? <==> d.Dispatch? && LeftOpen(d.execution) && !ending.GaveWay?
  }

  /** How a dispatched recovery ends: nothing more to do here, handed over after a failed re-execution,
      or continued from the row that the continuation owned. */
  datatype Ending = GaveWay | HandedOver | Resumed(t: Taken)

  /** The steps of each ending. */
  function Tail(me: ActorId, e: Ending, claim: TaskRow, atPause: bool, c: Circumstances): seq<D.Step> {
    match e
    case GaveWay => []
    case HandedOver => [Writing(me, RequireRecovery, RequiredAt(claim, c.requiredNow), c.requiredFault)]
    case Resumed(t) =>
      (if atPause then Opening(me, B.Captured(claim), t.owned, claim.id) else [])
      + (if t.owned.Some? then Exits(me, t.visit.Ending(), c.weather, t.reply) else [])
  }

  /** The resume of a row, or the continuation of the claim, is all that follows. */
  lemma TailIs(own: seq<D.Step>, me: ActorId, t: Taken, claim: TaskRow, atPause: bool, c: Circumstances)
    ensures var exits := if t.owned.Some? then Exits(me, t.visit.Ending(), c.weather, t.reply) else [];
            && (atPause ==>
                  own + Opening(me, B.Captured(claim), t.owned, claim.id) + exits ==
                    own + Tail(me, Resumed(t), claim, atPause, c))
            && (!atPause ==> own + exits == own + Tail(me, Resumed(t), claim, atPause, c))
  {
  }

  /** Whether the recovery claim of a Task is granted, given the table that it meets. */
  function ClaimReply(tasks: S.Tasks, task: TaskRow, now: Time, fault: Fault): Result<bool> {
    match Transition(ClaimRecovery, task, now)
    case Err(e) => Err(e)
    case Ok(claim) => S.ReconcileReply(tasks, claim, task, fault)
  }

  /** The workflow went on since the evidence was taken. */
  predicate Superseded(c: Circumstances) {
    c.evidenceAfterClaim.NoEvidence? || c.evidence.NoEvidence? || c.evidenceAfterClaim.checkpointId != c.evidence.checkpointId
  }

  /** A dispatch gives way exactly when the claim is not granted or the workflow went on. */
  predicate Yields(tasks: S.Tasks, task: TaskRow, c: Circumstances) {
    ClaimReply(tasks, task, c.writeNow, c.writeFault) != Ok(true) || Superseded(c)
  }

  /** How a dispatch asks the runtime to go on. */
  function EntryOf(d: Decision, evidence: R.Evidence): Entry
    requires d.Dispatch? && evidence.Evidence?
  {
    if d.atPause then AtPause(d.approval) else AtTool(d.approval, evidence.checkpointId)
  }

  /** The resume of an ending, if it has one. */
  function TakenBy(ending: Ending): Taken {
    if ending.Resumed? then ending.t else UNTAKEN
  }

  /** The report when a dispatch gives way. */
  function YieldReply(tasks: S.Tasks, task: TaskRow, c: Circumstances): Result<RecoveryOutcome> {
    match ClaimReply(tasks, task, c.writeNow, c.writeFault)
    case Err(e) => Err(e)
    case Ok(_) => Ok(STILL_IN_PROGRESS)
  }

  /* ---- what the reports mean ---- */

  /** The row is still the one that was read. */
  predicate Still(tasks: S.Tasks, read: TaskRow) {
    && read.id in tasks && tasks[read.id].status == read.status && tasks[read.id].updatedAt == read.updatedAt
  }

  /** Each report of a hand-over; clocks never refuse it. */
  lemma HandOverReports(tasks: S.Tasks, task: TaskRow, orphan: bool, now: Time, fault: Fault)
    requires task.WellFormed() && task.status in {RUNNING, WAITING_APPROVAL, TaskStatus.RECOVERY_REQUIRED}
    ensures var reply, open := RequiredReply(tasks, task, orphan, now, fault), task.status != TaskStatus.RECOVERY_REQUIRED;
            && (reply == Err(DatabaseError) <==> open && !fault.Fine?)
            && (reply == Ok(STILL_IN_PROGRESS) <==> open && fault.Fine? && !Still(tasks, task))
            && (reply == Ok(ORPHAN_CHECKPOINT) <==> orphan && (open ==> fault.Fine? && Still(tasks, task)))
            && (reply == Ok(RecoveryOutcome.RECOVERY_REQUIRED) <==> !orphan && (open ==> fault.Fine? && Still(tasks, task)))
    ensures RequiredAt(task, now) >= now && RequiredAt(task, now) > task.updatedAt
  {
    TransitionIsSoundFor(Operation.RequireRecovery, task, RequiredAt(task, now));
  }

  /** Each report of a conclusion. */
  lemma ConclusionReports(tasks: S.Tasks, task: TaskRow, answer: string, now: Time, fault: Fault)
    requires task.WellFormed() && task.status == RUNNING && !Blank(answer)
    ensures var reply := ConcludeReply(tasks, task, answer, now, fault);
            && (reply == Err(TaskInvalid) <==> now < task.updatedAt)
            && (reply == Err(DatabaseError) <==> task.updatedAt <= now && !fault.Fine?)
            && (reply == Ok(STILL_IN_PROGRESS) <==> task.updatedAt <= now && fault.Fine? && !Still(tasks, task))
            && (reply == Ok(RECOVERED) <==> task.updatedAt <= now && fault.Fine? && Still(tasks, task))
  {
    TransitionIsSoundFor(Operation.Succeed(answer), task, now);
  }

  /** When a dispatch gives way, and what it then reports: for its clock, its database, a row that has moved, or a workflow
      that has gone on since the evidence was taken. */
  lemma DispatchReports(tasks: S.Tasks, task: TaskRow, c: Circumstances)
    requires task.WellFormed() && task.status in {RUNNING, TaskStatus.RECOVERY_REQUIRED} && c.evidence.Evidence?
    ensures var same := c.evidenceAfterClaim.Evidence? && c.evidenceAfterClaim.checkpointId == c.evidence.checkpointId;
            var granted := task.updatedAt <= c.writeNow && c.writeFault.Fine? && Still(tasks, task);
            && (Yields(tasks, task, c) <==> !granted || !same)
            && (YieldReply(tasks, task, c) == Err(TaskInvalid) <==> c.writeNow < task.updatedAt)
            && (YieldReply(tasks, task, c) == Err(DatabaseError) <==> task.updatedAt <= c.writeNow && !c.writeFault.Fine?)
            && (YieldReply(tasks, task, c) == Ok(STILL_IN_PROGRESS) <==> task.updatedAt <= c.writeNow && c.writeFault.Fine?)
  {
    TransitionIsSoundFor(ClaimRecovery, task, c.writeNow);
  }

  lemma TransitionIsSoundFor(op: Operation, row: TaskRow, now: Time)
    requires row.WellFormed()
    ensures Transition(op, row, now).Ok? ==>
              Transition(op, row, now).value.WellFormed() && Transition(op, row, now).value.id == row.id
  {
    if Transition(op, row, now).Ok? {
      TransitionIsSound(op, row, now);
    }
  }

  /** Of the calls that are dispatched, exactly those that were made before and have not succeeded are made again
      first. */
  lemma DispatchedRows(id: TaskId, r: Reading, capability: Capability)
    requires Classify(id, r, capability).Dispatch?
    ensures var d, slot := Classify(id, r, capability), L.Slot(id, Classify(id, r, capability).call.id);
            LeftOpen(d.execution) <==> slot in r.rows && r.rows[slot].status != L.SUCCEEDED
  {
    DecisionMeans(id, r, capability);
  }

  /** The row that a granted recovery claim leaves. */
  function ClaimOf(task: TaskRow, now: Time): TaskRow {
    match Transition(ClaimRecovery, task, now)
    case Ok(claim) => claim
    case Err(_) => task
  }

  /** The tables after a granted claim. */
  function ClaimedRows(rows: S.Rows, task: TaskRow, c: Circumstances): S.Rows {
    rows.(tasks := S.ReconciledTasks(rows.tasks, ClaimOf(task, c.writeNow), task, c.writeFault))
  }

  /** Resumed from the claim itself, with the reply for these tables. */
  predicate ResumedOn(ending: Ending, rows: S.Rows, claim: TaskRow, c: Circumstances) {
    ending.Resumed? && ending.t.owned == Some(claim)
    && ending.t.reply == ContinueReply(rows, claim, ending.t.visit.Ending(), c.weather)
  }

  /** The account of reading the Task; it changes no table. */
  function Reads(me: ActorId, id: TaskId, task: Option<TaskRow>): seq<D.Step> {
    if task.Some? then [D.OnBusiness(B.Capture(me, id))] else []
  }

  /** All transactions that follow the reading, in order. */
  function Deeds(me: ActorId, d: Decision, task: Option<TaskRow>, redo: Redo, ending: Ending,
                 c: Circumstances): seq<D.Step> {
    if d.Dispatch? && task.Some? then Redispatching(me, d, task.value, redo, ending, c) else Answering(me, d, task, c)
  }

  /** The claim, the attempt on an abandoned call, and what followed. */
  function Redispatching(me: ActorId, d: Decision, task: TaskRow, redo: Redo, ending: Ending,
                         c: Circumstances): seq<D.Step>
    requires d.Dispatch?
  {
    [Writing(me, ClaimRecovery, c.writeNow, c.writeFault)] + Redone(me, redo, d.approval, task.id, d.call, c)
    + Tail(me, ending, ClaimOf(task, c.writeNow), d.atPause, c)
  }

  lemma {:induction false} Joined(me: ActorId, own: seq<D.Step>, d: Decision, task: TaskRow, redo: Redo, ending: Ending,
                                  c: Circumstances)
    requires d.Dispatch?
    ensures own + [Writing(me, ClaimRecovery, c.writeNow, c.writeFault)]
            + Redone(me, redo, d.approval, task.id, d.call, c)
            + Tail(me, ending, ClaimOf(task, c.writeNow), d.atPause, c)
         == own + Redispatching(me, d, task, redo, ending, c)
    ensures redo.NoRedo? && ending.GaveWay? ==>
              own + [Writing(me, ClaimRecovery, c.writeNow, c.writeFault)] ==
                own + Redispatching(me, d, task, redo, ending, c)
  {
  }

  /** A decision that acts on a Task has one, in a status that it may act on. */
  predicate Fits(d: Decision, task: Option<TaskRow>, evidence: R.Evidence) {
    && (d.Review? || d.Conclude? || d.Dispatch? ==>
          task.Some? && task.value.status in {RUNNING, WAITING_APPROVAL, TaskStatus.RECOVERY_REQUIRED})
    && (d.Dispatch? ==> evidence.Evidence?)
    && (Closed(task) ==> Quiet(d))
  }

  /** Less than the threshold ago on the clock of this recovery. */
  predicate Recent(stamp: Time, c: Circumstances) {
    stamp + c.staleAfter > c.clock
  }

  ghost predicate RecentRow(rows: L.Ledger, id: TaskId, c: Circumstances) {
    exists slot | slot in rows :: slot.task == id && Recent(rows[slot].updatedAt, c)
  }

  /** A RUNNING Task, or, where recovery looks at the ledger, a Task or any row of it, that somebody touched
      recently. */
  ghost predicate TooRecent(id: TaskId, r: Reading, c: Circumstances) {
    || (r.task.Some? && r.task.value.status == RUNNING && Recent(r.task.value.updatedAt, c))
    || (Evidenced(id, r) && r.evidence.checkpoint.next == End && RecentRow(r.rows, id, c))
    || (Granted(id, r) && (Recent(r.task.value.updatedAt, c) || RecentRow(r.rows, id, c)))
  }

  /** Recovery waits exactly for what is too recent. */
  lemma WaitsForTheRecent(id: TaskId, r: Reading, capability: Capability, c: Circumstances)
    requires r.cutoff == c.clock - c.staleAfter
    ensures Classify(id, r, capability) == InProgress <==> TooRecent(id, r, c)
  {
    LiveIsRecent(r.rows, id, r.cutoff, c);
    DecisionMeans(id, r, capability);
  }

  lemma LiveIsRecent(rows: L.Ledger, id: TaskId, cutoff: Time, c: Circumstances)
    requires cutoff == c.clock - c.staleAfter
    ensures LiveRow(rows, id, cutoff) <==> RecentRow(rows, id, c)
  {
    if LiveRow(rows, id, cutoff) {
      var slot :| slot in rows && slot.task == id && rows[slot].updatedAt > cutoff;
      assert Recent(rows[slot].updatedAt, c);
    }
    if RecentRow(rows, id, c) {
      var slot :| slot in rows && slot.task == id && Recent(rows[slot].updatedAt, c);
      assert rows[slot].updatedAt > cutoff;
    }
  }

  /** No Task, or one that recovery must leave alone. */
  predicate Closed(task: Option<TaskRow>) {
    task.None? || task.value.status == TaskStatus.PENDING || Terminal(task.value.status)
  }

  /** Only open Tasks are handed over, concluded or dispatched. */
  lemma DecisionFits(id: TaskId, r: Reading, capability: Capability)
    ensures Fits(Classify(id, r, capability), r.task, r.evidence)
  {
  }

  /** Decisions that lead to no step at all. */
  predicate Quiet(d: Decision) {
    d.Nothing? || d.OrphanCheckpoint? || d.InProgress?
  }

  class TaskRecoveryService {
    const service: TaskExecutionService

    constructor (service: TaskExecutionService)
      ensures this.service == service
    {
      this.service := service;
    }

    ghost predicate Valid()
      reads service.site, service.site.store, service.site.executions
    {
      service.site.Valid()
    }

    /** Read the Task, its rows and its Approval, others acting in between, and decide what to do. */
    method Assess(id: TaskId, evidence: R.Evidence, cutoff: Time, capability: Capability)
      returns (decision: Decision, task: Option<TaskRow>, ghost r: Reading, ghost at: Moments)
      requires Valid() && (service.Hold().Free? || service.Hold().Captured?)
      modifies service.site, service.site.store, service.site.executions
      ensures Valid() && old(service.site.trace) <= service.site.trace
      ensures decision == Classify(id, r, capability)
      ensures r.task == task && r.evidence == evidence && r.cutoff == cutoff
      ensures |old(service.site.trace)| <= at.task && ReadAt(service.site.modes, service.site.trace, id, r, at)
      ensures at.decided == |service.site.trace|
      ensures old(service.Alone()) ==> service.Alone() && Untouched(old(service.site.world), service.site.world, id, r)
      ensures service.Own() == old(service.Own()) + Reads(service.me, id, task)
      ensures task.Some? ==> service.Hold() == B.Captured(task.value) && task.value.id == id
      ensures service.Phase() == old(service.Phase())
    {
      var site := service.site;
      ghost var early;
      task, early := ReadTask(id);
      service.Interleave();
      MomentStays(site.modes, early, site.trace, |early|);
      var stop;
      stop, decision := AssessStatus(id, task, evidence, cutoff);
      if stop {
        ghost var n := |site.trace|;
        assert site.trace[..n] == site.trace;
        r := Reading(task, evidence, cutoff, site.world.ledger.core.rows, site.world.business.rows.approvals);
        at := Moments(|early|, n, n, n);
        return;
      }
      decision, r, at := AssessOpen(id, task.value, evidence, cutoff, capability);
      OpenGoesOn(id, r, capability);
      MomentStays(site.modes, early, site.trace, |early|);
      at := Moments(|early|, at.rows, at.approvals, at.decided);
    }

    method ReadTask(id: TaskId) returns (task: Option<TaskRow>, ghost early: seq<D.Step>)
      requires Valid() && (service.Hold().Free? || service.Hold().Captured?)
      modifies service.site, service.site.store, service.site.executions
      ensures Valid() && old(service.site.trace) <= early <= service.site.trace
      ensures task == Find(Moment(service.site.modes, early, |early|).business.rows.tasks, id)
      ensures service.Own() == old(service.Own()) + Reads(service.me, id, task)
      ensures task.Some? ==> service.Hold() == B.Captured(task.value) && task.value.id == id
      ensures service.Phase() == old(service.Phase())
      ensures old(service.Alone()) ==>
                service.Alone() && SameTables(old(service.site.world), service.site.world)
                && task == Find(old(service.site.world).business.rows.tasks, id)
    {
      service.Interleave();
      service.site.Reached();
      task := service.site.store.GetTask(id);
      early := service.site.trace;
      assert early == early[..|early|];
      if task.Some? {
        service.Note(B.Capture(service.me, id));
      }
    }

    /** The part of the classification that needs no more than the Task and the evidence. */
    method AssessStatus(id: TaskId, found: Option<TaskRow>, evidence: R.Evidence, cutoff: Time)
      returns (stop: bool, decision: Decision)
      ensures stop ==> forall rows, approvals, capability: Capability ::
                decision == Classify(id, Reading(found, evidence, cutoff, rows, approvals), capability)
      ensures !stop ==> Open(id, found, evidence, cutoff)
    {
      var stored := evidence.Evidence?;
      stop := true;
      if found.None? {
        decision := if stored then OrphanCheckpoint else Nothing;
        return;
      }
      var task := found.value;
      if task.status == SUCCEEDED || task.status == FAILED || task.status == TaskStatus.REJECTED {
        var healthy := task.status == SUCCEEDED && stored && evidence.checkpoint.next.End?
                       && evidence.checkpoint.state.taskId == id && evidence.checkpoint.state.finalAnswer == task.result;
        decision := if healthy || !stored then Nothing else OrphanCheckpoint;
        return;
      }
      if task.status == TaskStatus.PENDING {
        decision := if stored then OrphanCheckpoint else Nothing;
        return;
      }
      if task.status == RUNNING && task.updatedAt > cutoff {
        decision := InProgress;
        return;
      }
      if !stored || evidence.checkpoint.state.taskId != id {
        decision := Review(false);
        return;
      }
      stop, decision := false, Nothing;
    }

    /** The rows of the Task, then the Approval that the checkpoint waits for. */
    method AssessOpen(id: TaskId, task: TaskRow, evidence: R.Evidence, cutoff: Time, capability: Capability)
      returns (decision: Decision, ghost r: Reading, ghost at: Moments)
      requires Valid() && evidence.Evidence? && evidence.checkpoint.state.taskId == id
      modifies service.site, service.site.store, service.site.executions
      ensures Valid() && old(service.site.trace) <= service.site.trace
      ensures decision == ClassifyOpen(id, task, evidence.checkpoint, r, capability)
      ensures r.task == Some(task) && r.evidence == evidence && r.cutoff == cutoff
      ensures |old(service.site.trace)| <= at.rows <= at.approvals <= |service.site.trace|
      ensures at.decided == |service.site.trace|
      ensures old(service.Alone()) ==>
                service.Alone() && SameTables(old(service.site.world), service.site.world)
                && r.rows == old(service.site.world).ledger.core.rows
                && r.approvals == old(service.site.world).business.rows.approvals
      ensures r.rows == Moment(service.site.modes, service.site.trace, at.rows).ledger.core.rows
      ensures r.approvals == Moment(service.site.modes, service.site.trace, at.approvals).business.rows.approvals
      ensures service.Own() == old(service.Own()) && service.Hold() == old(service.Hold())
      ensures service.Phase() == old(service.Phase())
    {
      var site := service.site;
      service.Interleave();
      var executions := site.executions.ListForTask(id);
      ghost var rows, early := site.world.ledger.core.rows, site.trace;
      assert early == early[..|early|];
      service.Interleave();
      MomentStays(site.modes, early, site.trace, |early|);
      ShownNow();
      r := Reading(Some(task), evidence, cutoff, rows, site.world.business.rows.approvals);
      at := Moments(0, |early|, |site.trace|, |site.trace|);
      decision := AssessCheckpoint(id, task, executions, capability, evidence.checkpoint, cutoff, r);
    }

    /** Where the checkpoint stands, against the rows listed before and the Approval read now. */
    method AssessCheckpoint(id: TaskId, task: TaskRow, executions: L.Ledger, capability: Capability, cp: Checkpoint,
                            cutoff: Time, ghost r: Reading)
      returns (decision: Decision)
      requires executions == map slot | slot in r.rows && slot.task == id :: r.rows[slot]
      requires r.approvals == service.site.store.approvals && r.cutoff == cutoff && cp.state.taskId == id
      ensures decision == ClassifyOpen(id, task, cp, r, capability)
    {
      var s := cp.state;
      ListingSuffices(r.rows, id, executions, cutoff, "");
      if cp.next.End? {
        if LiveRow(executions, id, cutoff) {
          return InProgress;
        }
        if task.status == RUNNING && s.finalAnswer.Some? && !Blank(s.finalAnswer.value) {
          return Conclude(s.finalAnswer.value);
        }
        return Review(false);
      }
      if cp.next.Llm? || s.pending.None? {
        return Review(false);
      }
      var pending := s.pending.value;
      if s.cursor >= |s.toolCalls| || pending.taskId != id {
        return Review(false);
      }
      var approval := service.site.store.GetApproval(pending.id);
      if approval.None? {
        return Review(true);
      }
      ListingSuffices(r.rows, id, executions, cutoff, s.toolCalls[s.cursor].id);
      decision := AssessRequest(id, task, cp, cutoff, executions, approval.value, capability);
    }

    /** The request in the checkpoint against its stored Approval and its ledger row. */
    method AssessRequest(id: TaskId, task: TaskRow, cp: Checkpoint, cutoff: Time, executions: L.Ledger,
                         approval: A.ApprovalRow,
                         capability: Capability) returns (decision: Decision)
      requires cp.state.pending.Some? && cp.state.cursor < |cp.state.toolCalls|
      ensures var p, call := cp.state.pending.value, cp.state.toolCalls[cp.state.cursor];
              decision ==
                if !approval.Covers(id, call) || p.call != call then Review(false)
                else if task.status.WAITING_APPROVAL? && approval.status.PENDING? && cp.next.ApprovalPause? then Nothing
                else if !approval.status.APPROVED? then Review(approval.status.REJECTED?)
                else if !task.status.RUNNING? && !task.status.RECOVERY_REQUIRED? then Review(false)
                else ClassifyApproved(id, task, cp, p, cutoff, executions, capability)
    {
      var pending, call := cp.state.pending.value, cp.state.toolCalls[cp.state.cursor];
      if approval.taskId != id || approval.callId != call.id || approval.toolName != call.name || approval.arguments != call.arguments
         || pending.call.id != call.id || pending.call.name != call.name || pending.call.arguments != call.arguments {
        return Review(false);
      }
      if task.status == WAITING_APPROVAL && approval.status == A.PENDING && cp.next.ApprovalPause? {
        return Nothing;
      }
      if approval.status != A.APPROVED {
        return Review(approval.status == A.REJECTED);
      }
      if task.status != RUNNING && task.status != TaskStatus.RECOVERY_REQUIRED {
        return Review(false);
      }
      if task.updatedAt > cutoff || LiveRow(executions, id, cutoff) {
        return InProgress;
      }
      if cp.next.Tool? && cp.state.resumeId != Some(pending.id) {
        return Review(false);
      }
      var execution := L.Lookup(executions, L.Slot(id, call.id));
      if execution.Some? {
        if execution.value.approvalId != pending.id || execution.value.toolName != call.name
           || execution.value.arguments != call.arguments {
          return Review(false);
        }
        if execution.value.status == L.FAILED {
          return Review(false);
        }
        if execution.value.status == L.EXECUTING || execution.value.status == L.UNKNOWN {
          if !Retryable(capability(call.name)) {
            return Review(false);
          }
        }
      }
      decision := Dispatch(pending.id, call, execution, cp.next.ApprovalPause?);
    }

    /** The last step of all is a move by this actor into one of these statuses. */
    ghost predicate Moved(moved: Option<Move>, statuses: set<TaskStatus>)
      reads service.site
    {
      moved.Some? && service.JustMoved(moved.value.expected, moved.value.row) && moved.value.row.status in statuses
    }

    /** Hand an open Task over to a human; one that was handed over before is left alone. */
    method Required(task: TaskRow, orphan: bool, now: Time, fault: Fault)
      returns (reply: Result<RecoveryOutcome>, ghost moved: Option<Move>)
      requires Valid() && service.Hold() == B.Captured(task)
      requires task.status in {RUNNING, WAITING_APPROVAL, TaskStatus.RECOVERY_REQUIRED}
      modifies service.site, service.site.store
      ensures Valid() && old(service.site.trace) <= service.site.trace && service.Phase() == old(service.Phase())
      ensures service.Own() == old(service.Own())
                + (if Handed(task) then [Writing(service.me, RequireRecovery, RequiredAt(task, now), fault)] else [])
      ensures Handed(task) ==>
                service.site.trace != [] && reply == RequiredReply(service.Before().tasks, task, orphan, now, fault)
      ensures !Handed(task) ==> reply == Ok(if orphan then ORPHAN_CHECKPOINT else RecoveryOutcome.RECOVERY_REQUIRED)
      ensures reply == Ok(RecoveryOutcome.RECOVERY_REQUIRED) ==>
                task.status == TaskStatus.RECOVERY_REQUIRED || Moved(moved, {TaskStatus.RECOVERY_REQUIRED})
      ensures reply.Ok? ==> reply.value in {RecoveryOutcome.RECOVERY_REQUIRED, ORPHAN_CHECKPOINT, STILL_IN_PROGRESS}
    {
      if task.status == RUNNING || task.status == WAITING_APPROVAL {
        reply, moved := HandOver(task, orphan, now, fault);
      } else {
        reply, moved := Ok(if orphan then ORPHAN_CHECKPOINT else RecoveryOutcome.RECOVERY_REQUIRED), None;
      }
    }

    method RequiredCandidate(task: TaskRow, now: Time) returns (candidate: Task, at: Time)
      requires Handed(task)
      ensures fresh(candidate) && at == RequiredAt(task, now)
      ensures Transition(Operation.RequireRecovery, task, at) == Ok(candidate.Row())
      ensures candidate.status == TaskStatus.RECOVERY_REQUIRED
    {
      candidate := new Task.Restore(task);
      at := Max(now, task.updatedAt + 1);
      var _ := candidate.RequireRecovery(at);
    }

    method HandOver(task: TaskRow, orphan: bool, now: Time, fault: Fault)
      returns (reply: Result<RecoveryOutcome>, ghost moved: Option<Move>)
      requires Valid() && service.Hold() == B.Captured(task) && Handed(task)
      modifies service.site, service.site.store
      ensures Valid() && old(service.site.trace) <= service.site.trace && service.Phase() == old(service.Phase())
      ensures service.Own() == old(service.Own()) + [Writing(service.me, RequireRecovery, RequiredAt(task, now), fault)]
      ensures service.site.trace != [] && reply == RequiredReply(service.Before().tasks, task, orphan, now, fault)
      ensures reply == Ok(RecoveryOutcome.RECOVERY_REQUIRED) ==> Moved(moved, {TaskStatus.RECOVERY_REQUIRED})
    {
      moved := None;
      var candidate, at := RequiredCandidate(task, now);
      var accepted := service.Persist(candidate.Row(), task, Operation.RequireRecovery, at, fault);
      RequiredReport(service.Before().tasks, task, candidate.Row(), orphan, now, fault);
      reply := WriteReport(accepted, if orphan then ORPHAN_CHECKPOINT else RecoveryOutcome.RECOVERY_REQUIRED);
      if accepted == Ok(true) {
        moved := Some(Move(task, candidate.Row()));
      }
    }

    /** The workflow has its answer; only the Task row is behind. */
    method Finish(task: TaskRow, answer: string, now: Time, fault: Fault)
      returns (reply: Result<RecoveryOutcome>, ghost moved: Option<Move>)
      requires Valid() && service.Hold() == B.Captured(task)
      modifies service.site, service.site.store
      ensures Valid() && old(service.site.trace) <= service.site.trace
      ensures service.Own() == old(service.Own()) + [Writing(service.me, Succeed(answer), now, fault)]
      ensures service.site.trace != [] && reply == ConcludeReply(service.Before().tasks, task, answer, now, fault)
      ensures reply == Ok(RECOVERED) ==> Moved(moved, {SUCCEEDED}) && moved.value.row.result == Some(answer)
    {
      moved := None;
      var candidate := new Task.Restore(task);
      var failure := candidate.Succeed(answer, now);
      ConcludeReport(service.site.world.business.rows.tasks, task, answer, now, fault);
      if failure.Some? {
        service.Refused(task, Operation.Succeed(answer), now, fault);
        return Err(failure.value), moved;
      }
      var accepted := service.Persist(candidate.Row(), task, Operation.Succeed(answer), now, fault);
      reply := WriteReport(accepted, RECOVERED);
      if accepted == Ok(true) {
        moved := Some(Move(task, candidate.Row()));
      }
    }

    /** The recovery claim of the Task, as a generation of its own. */
    method Claim(task: TaskRow, now: Time, fault: Fault) returns (claim: Task, won: Result<bool>)
      requires Valid() && service.Hold() == B.Captured(task)
      modifies service.site, service.site.store
      ensures Valid() && fresh(claim)
      ensures service.site.trace == old(service.site.trace) + [Writing(service.me, ClaimRecovery, now, fault)]
      ensures service.Own() == old(service.Own()) + [Writing(service.me, ClaimRecovery, now, fault)]
      ensures won == ClaimReply(old(service.site.world).business.rows.tasks, task, now, fault)
      ensures won == Ok(true) ==>
                Transition(ClaimRecovery, task, now) == Ok(claim.Row()) && service.Hold() == B.Captured(claim.Row())
      ensures won == Ok(true) ==>
                RunningIn(service.site.store.tasks, task.id) == Some(claim.Row())
                && service.site.store.All() == old(service.site.store.All()).(
                     tasks := S.ReconciledTasks(old(service.site.store.tasks), claim.Row(), task, fault))
      ensures service.site.world == D.Next(service.site.modes, old(service.site.world),
                                           Writing(service.me, ClaimRecovery, now, fault))
      ensures service.Phase() == old(service.Phase()) && service.Alone() == old(service.Alone())
    {
      claim := new Task.Restore(task);
      var failure := claim.ClaimRecovery(now);
      if failure.Some? {
        service.Refused(task, Operation.ClaimRecovery, now, fault);
        return claim, Err(failure.value);
      }
      won := service.Persist(claim.Row(), task, Operation.ClaimRecovery, now, fault);
    }

    /** Finish the abandoned tool call through the ledger; this touches no Task. */
    method Reexecute(approval: ApprovalId, id: TaskId, call: ToolCall, c: Circumstances)
      returns (raised: bool, ghost redo: Redo)
      requires Valid()
      requires service.Phase().Idle? || service.Phase().Done?
      modifies service.site, service.site.store, service.site.executions
      ensures Valid() && old(service.site.trace) <= service.site.trace
      ensures redo.Redo? && service.Own() == old(service.Own()) + Redone(service.me, redo, approval, id, call, c)
      ensures service.Hold() == old(service.Hold())
      ensures service.Phase().Done? && raised == service.Phase().reply.Raised?
      ensures old(service.Alone()) ==>
                service.Alone()
                && service.site.world == D.Run(service.site.modes, old(service.site.world),
                                               Redone(service.me, redo, approval, id, call, c))
    {
      ghost var trace, world := service.site.trace, service.site.world;
      var executor := new X.ApprovedToolExecutionService(service.site, service.me);
      var reply, cached := executor.Recover(approval, id, call, c.clock - c.staleAfter, c.tool);
      raised := reply.Raised?;
      redo := RedoOf(trace, approval, id, call, c, cached);
      HoldStays(service.site.modes, service.me, trace, service.site.trace,
                Redone(service.me, redo, approval, id, call, c));
      if old(service.Alone()) {
        OnlyRedone(trace, world, Redone(service.me, redo, approval, id, call, c));
      }
    }

    /** With nobody else at work the attempt is all that happened. */
    lemma {:induction false} OnlyRedone(trace: seq<D.Step>, world: D.World, redo: seq<D.Step>)
      requires Valid() && trace <= service.site.trace && world == D.Run(service.site.modes, D.INITIAL, trace)
      requires service.Own() == Mine(service.me, trace) + redo
      requires |service.site.trace| - |service.Own()| == |trace| - |Mine(service.me, trace)|
      ensures service.site.world == D.Run(service.site.modes, world, redo)
    {
      NobodyElse(service.me, trace, service.site.trace);
      assert service.site.trace[|trace|..] == service.Own()[|Mine(service.me, trace)|..] == redo;
      assert service.site.trace == trace + redo;
      D.RunConcat(service.site.modes, D.INITIAL, trace, redo);
    }

    /** How far recover() went. */
    lemma {:induction false} RedoOf(trace: seq<D.Step>, approval: ApprovalId, id: TaskId, call: ToolCall,
                                    c: Circumstances, cached: bool)
      returns (redo: Redo)
      requires X.Followed(Mine(service.me, trace) + [D.OnLedger(E.Begin(service.me,
                                                                        E.Request(E.Recover(Cutoff(c)), approval, id, call)))],
                          service.Own(), X.RecoverScript(service.me, c.tool, cached))
      ensures redo.Redo? && service.Own() == Mine(service.me, trace) + Redone(service.me, redo, approval, id, call, c)
    {
      var begin := D.OnLedger(E.Begin(service.me, E.Request(E.Recover(Cutoff(c)), approval, id, call)));
      var script := X.RecoverScript(service.me, c.tool, cached);
      var k: nat :| X.Upto(Mine(service.me, trace) + [begin], service.Own(), script, k);
      redo := Redo(cached, k);
      assert ([begin] + script)[..k + 1] == [begin] + script[..k];
    }

    /** Nobody else takes part, and the table shows the claim. */
    ghost predicate Unrivalled(claim: TaskRow)
      reads service.site, service.site.store
    {
      service.Alone() && RunningIn(service.site.store.tasks, claim.id) == Some(claim)
    }

    /** At the pause: a resume of the row as it was read, after the claim; at the tool: one continuation of the
        claim. */
    ghost predicate WentOn(t: Taken, claim: TaskRow, atPause: bool, c: Circumstances, from: nat)
      reads service.site
    {
      && from <= t.read <= t.met
      && (if atPause then service.TookOver(claim.id, t, c.weather) && service.OpenedAt(B.Captured(claim), t.owned, t.read, claim.id)
          else t.owned == Some(claim) && service.RepliedAt(claim, t.visit.Ending(), c.weather, t.reply, t.met))
    }

    /** Continue at the pause through a resume of the current row, or at the tool under the claim itself. */
    method GoOn(claim: Task, d: Decision, c: Circumstances) returns (reply: Result<TaskRow>, ghost t: Taken)
      requires Valid() && service.runtime.Valid() && service.Hold() == B.Captured(claim.Row())
      requires claim.status == RUNNING && d.Dispatch? && c.evidence.Evidence?
      modifies service.site, service.site.store, service.site.executions, service.runtime, claim
      ensures Valid() && old(service.site.trace) <= service.site.trace && service.Phase() == old(service.Phase())
      ensures service.Own() == old(service.Own()) + Tail(service.me, Resumed(t), old(claim.Row()), d.atPause, c)
      ensures t.reply == reply && WentOn(t, old(claim.Row()), d.atPause, c, |old(service.site.trace)|)
      ensures old(Unrivalled(claim.Row())) ==> ResumedOn(Resumed(t), old(service.site.store.All()), old(claim.Row()), c)
      ensures reply.Ok? ==> t.owned.Some? && service.Acknowledged(t.owned.value, t.visit.Ending(), reply.value)
      ensures service.RuntimeCalled(claim.id, EntryOf(d, c.evidence), c.outside, t)
    {
      ghost var trace, own, row := service.site.trace, service.Own(), claim.Row();
      service.ShownNow();
      if d.atPause {
        reply, t := service.Resume(claim.id, d.approval, c.outside, c.weather);
      } else {
        ghost var met, v := 0, NO_VISIT;
        reply, met, v := service.ContinueRunning(claim, AtTool(d.approval, c.evidence.checkpointId), c.outside,
                                                 c.weather);
        t := Taken(Some(row), |trace|, met, v, reply);
        service.SeenStays(trace, |trace|);
      }
      TailIs(own, service.me, t, row, d.atPause, c);
    }

    /** After the claim: the checkpoint must be the same, the ledger must yield a result, then the workflow goes on. */
    method Continue(claim: Task, d: Decision, c: Circumstances)
      returns (reply: Result<RecoveryOutcome>, ghost redo: Redo, ghost ending: Ending, ghost moved: Option<Move>)
      requires Valid() && service.runtime.Valid() && service.Hold() == B.Captured(claim.Row())
      requires claim.status == RUNNING && d.Dispatch? && c.evidence.Evidence?
      requires service.Phase().Idle? || service.Phase().Done?
      modifies service.site, service.site.store, service.site.executions, service.runtime, claim
      ensures Valid() && old(service.site.trace) <= service.site.trace
      ensures service.Own() == old(service.Own()) + Redone(service.me, redo, d.approval, claim.id, d.call, c)
                               + Tail(service.me, ending, old(claim.Row()), d.atPause, c)
      ensures RedoFits(redo, d, ending) && (ending.GaveWay? <==> Superseded(c))
      ensures Told(reply, ending, old(claim.Row()), d, c, |old(service.site.trace)|)
      ensures old(Unrivalled(claim.Row())) ==> Foreseen(old(service.site.world), redo, ending, old(claim.Row()), d, c)
      ensures reply.Ok? ==> Honest(reply.value, moved)
      ensures service.RuntimeCalled(claim.id, EntryOf(d, c.evidence), c.outside, TakenBy(ending))
    {
      redo, ending, moved := NoRedo, GaveWay, None;
      service.Interleave();
      if c.evidenceAfterClaim.NoEvidence? || c.evidenceAfterClaim.checkpointId != c.evidence.checkpointId {
        return Ok(STILL_IN_PROGRESS), redo, ending, moved;
      }
      reply, redo, ending, moved := CarryOn(claim, d, c);
    }

    /** With nobody else at work: where the attempt on an abandoned call ends, and that the claim itself is
        continued. */
    ghost predicate Foreseen(w: D.World, redo: Redo, ending: Ending, claim: TaskRow, d: Decision, c: Circumstances)
      requires d.Dispatch?
      reads service.site
    {
      !ending.GaveWay? ==>
        && service.Phase() == E.PhaseOf(D.Run(service.site.modes, w,
                                              Redone(service.me, redo, d.approval, claim.id, d.call, c)).ledger,
                                        service.me)
        && (ending.HandedOver? || ResumedOn(ending, w.business.rows, claim, c))
    }

    /** The abandoned call first, then the workflow. */
    method CarryOn(claim: Task, d: Decision, c: Circumstances)
      returns (reply: Result<RecoveryOutcome>, ghost redo: Redo, ghost ending: Ending, ghost moved: Option<Move>)
      requires Valid() && service.runtime.Valid() && service.Hold() == B.Captured(claim.Row())
      requires claim.status == RUNNING && d.Dispatch? && c.evidence.Evidence?
      requires service.Phase().Idle? || service.Phase().Done?
      modifies service.site, service.site.store, service.site.executions, service.runtime, claim
      ensures Valid() && old(service.site.trace) <= service.site.trace
      ensures service.Own() == old(service.Own()) + Redone(service.me, redo, d.approval, claim.id, d.call, c)
                               + Tail(service.me, ending, old(claim.Row()), d.atPause, c)
      ensures RedoFits(redo, d, ending) && !ending.GaveWay?
      ensures Told(reply, ending, old(claim.Row()), d, c, |old(service.site.trace)|)
      ensures old(Unrivalled(claim.Row())) ==> Foreseen(old(service.site.world), redo, ending, old(claim.Row()), d, c)
      ensures reply.Ok? ==> Honest(reply.value, moved)
      ensures service.RuntimeCalled(claim.id, EntryOf(d, c.evidence), c.outside, TakenBy(ending))
    {
      var raised;
      raised, redo := RedoIfLeftOpen(claim.id, d, c);
      if raised {
        ending := HandedOver;
        reply, moved := GiveBack(claim.Row(), d, c);
      } else {
        reply, ending, moved := Proceed(claim, d, c);
      }
    }

    /** An uncertain effect or commit leaves durable truth to the next request. */
    method GiveBack(claim: TaskRow, d: Decision, c: Circumstances)
      returns (reply: Result<RecoveryOutcome>, ghost moved: Option<Move>)
      requires Valid() && service.Hold() == B.Captured(claim) && claim.status == RUNNING && d.Dispatch?
      requires RaisedAgain(d)
      modifies service.site, service.site.store
      ensures Valid() && old(service.site.trace) <= service.site.trace && service.Phase() == old(service.Phase())
      ensures service.Own() == old(service.Own()) + Tail(service.me, HandedOver, claim, d.atPause, c)
      ensures Told(reply, HandedOver, claim, d, c, 0)
      ensures reply.Ok? ==> Honest(reply.value, moved)
    {
      reply, moved := Required(claim, false, c.requiredNow, c.requiredFault);
    }

    /** An abandoned attempt is finished first. */
    method RedoIfLeftOpen(id: TaskId, d: Decision, c: Circumstances) returns (raised: bool, ghost redo: Redo)
      requires Valid() && d.Dispatch?
      requires service.Phase().Idle? || service.Phase().Done?
      modifies service.site, service.site.store, service.site.executions
      ensures Valid() && old(service.site.trace) <= service.site.trace
      ensures service.Own() == old(service.Own()) + Redone(service.me, redo, d.approval, id, d.call, c)
      ensures service.Hold() == old(service.Hold())
      ensures redo.Redo? <==> LeftOpen(d.execution)
      ensures raised <==> RaisedAgain(d)
      ensures LeftOpen(d.execution) ==> service.Phase().Done?
      ensures old(service.Alone()) ==>
                service.Alone() && service.site.store.All() == old(service.site.store.All())
                && service.site.world == D.Run(service.site.modes, old(service.site.world),
                                               Redone(service.me, redo, d.approval, id, d.call, c))
    {
      raised, redo := false, NoRedo;
      if d.execution.Some? && (d.execution.value.status == L.EXECUTING || d.execution.value.status == L.UNKNOWN) {
        ghost var world := service.site.world;
        raised, redo := Reexecute(d.approval, id, d.call, c);
        LedgerStepsKeepRows(service.site.modes, world, Redone(service.me, redo, d.approval, id, d.call, c));
      }
    }

    /** The attempt on an abandoned call ended in an error. */
    ghost predicate RaisedAgain(d: Decision)
      requires d.Dispatch?
      reads service.site
    {
      LeftOpen(d.execution) && service.Phase().Done? && service.Phase().reply.Raised?
    }

    /** There was no such attempt, or it returned. */
    ghost predicate Cleared(d: Decision)
      requires d.Dispatch?
      reads service.site
    {
      LeftOpen(d.execution) ==> service.Phase().Done? && service.Phase().reply.Returned?
    }

    method Proceed(claim: Task, d: Decision, c: Circumstances)
      returns (reply: Result<RecoveryOutcome>, ghost ending: Ending, ghost moved: Option<Move>)
      requires Valid() && service.runtime.Valid() && service.Hold() == B.Captured(claim.Row())
      requires claim.status == RUNNING && d.Dispatch? && c.evidence.Evidence? && Cleared(d)
      modifies service.site, service.site.store, service.site.executions, service.runtime, claim
      ensures Valid() && old(service.site.trace) <= service.site.trace && service.Phase() == old(service.Phase())
      ensures service.Own() == old(service.Own()) + Tail(service.me, ending, old(claim.Row()), d.atPause, c)
      ensures ending.Resumed? && Told(reply, ending, old(claim.Row()), d, c, |old(service.site.trace)|)
      ensures old(Unrivalled(claim.Row())) ==> ResumedOn(ending, old(service.site.store.All()), old(claim.Row()), c)
      ensures reply.Ok? ==> Honest(reply.value, moved)
      ensures service.RuntimeCalled(claim.id, EntryOf(d, c.evidence), c.outside, TakenBy(ending))
    {
      moved := None;
      ghost var t;
      var resumed;
      resumed, t := GoOn(claim, d, c);
      ending := Resumed(t);
      match resumed {
        case Err(e) => reply := Err(e);
        case Ok(row) => reply, moved := Ok(RECOVERED), Some(Move(t.owned.value, row));
      }
    }

    /** What the report on a dispatched recovery says, ending by ending: handed over exactly when the attempt on an
        abandoned call raised, and otherwise continued. */
    ghost predicate Told(reply: Result<RecoveryOutcome>, ending: Ending, claim: TaskRow, d: Decision, c: Circumstances,
                         from: nat)
      requires d.Dispatch?
      reads service.site
    {
      match ending
      case GaveWay => reply == Ok(STILL_IN_PROGRESS)
      case HandedOver => RaisedAgain(d) && service.site.trace != []
                         && reply == RequiredReply(service.Before().tasks, claim, false, c.requiredNow, c.requiredFault)
      case Resumed(t) => Cleared(d) && WentOn(t, claim, d.atPause, c, from)
                         && reply == (if t.reply.Ok? then Ok(RECOVERED) else Err(t.reply.error))
    }

    /** After the first n steps this actor held the snapshot that it read. */
    ghost predicate HeldAt(n: nat, task: TaskRow)
      reads service.site
    {
      n <= |service.site.trace|
      && B.HoldOf(Moment(service.site.modes, service.site.trace, n).business, service.me) == B.Captured(task)
    }

    /** The claim of the Task is the step after the first n. */
    ghost predicate ClaimedAt(n: nat, c: Circumstances)
      reads service.site
    {
      n < |service.site.trace| && service.site.trace[n] == Writing(service.me, ClaimRecovery, c.writeNow, c.writeFault)
    }

    /** A dispatch on the table that its claim met: it gives way exactly when it must, and otherwise is carried out. */
    ghost predicate Carried(tasks: S.Tasks, reply: Result<RecoveryOutcome>, ending: Ending, task: TaskRow, d: Decision,
                            c: Circumstances,
                            from: nat)
      requires d.Dispatch?
      reads service.site
    {
      && (ending.GaveWay? <==> Yields(tasks, task, c))
      && (if ending.GaveWay? then reply == YieldReply(tasks, task, c)
          else Told(reply, ending, ClaimOf(task, c.writeNow), d, c, from))
    }

    /** The world after the claim, which changes no more than the row of the Task. */
    function AfterClaim(w: D.World, c: Circumstances): D.World {
      D.Next(service.site.modes, w, Writing(service.me, ClaimRecovery, c.writeNow, c.writeFault))
    }

    /** A report of success or of a hand-over is backed by a write of this call. */
    ghost predicate Honest(outcome: RecoveryOutcome, moved: Option<Move>)
      reads service.site
    {
      && (outcome == RECOVERED ==> Moved(moved, {SUCCEEDED, WAITING_APPROVAL}))
      && (outcome == RecoveryOutcome.RECOVERY_REQUIRED ==> Moved(moved, {TaskStatus.RECOVERY_REQUIRED}))
      && outcome != NO_ACTION
    }

    /** What a recovery reports for each decision. */
    ghost predicate Reported(reply: Result<RecoveryOutcome>, d: Decision, task: Option<TaskRow>, c: Circumstances)
      reads service.site
    {
      match d
      case Nothing => reply == Ok(NO_ACTION)
      case OrphanCheckpoint => reply == Ok(ORPHAN_CHECKPOINT)
      case InProgress => reply == Ok(STILL_IN_PROGRESS)
      case Review(orphan) =>
        task.Some? &&
        if Handed(task.value)
        then service.site.trace != [] && reply == RequiredReply(service.Before().tasks, task.value, orphan,
                                                                c.requiredNow, c.requiredFault)
        else reply == Ok(if orphan then ORPHAN_CHECKPOINT else RecoveryOutcome.RECOVERY_REQUIRED)
      case Conclude(answer) =>
        task.Some? && service.site.trace != []
        && reply == ConcludeReply(service.Before().tasks, task.value, answer, c.writeNow, c.writeFault)
      case Dispatch(_, _, _, _) => reply != Ok(NO_ACTION)
    }

    /** Claim the Task, then continue it. */
    method Redispatch(task: TaskRow, d: Decision, c: Circumstances)
      returns (reply: Result<RecoveryOutcome>, ghost redo: Redo, ghost ending: Ending, ghost moved: Option<Move>)
      requires Valid() && service.runtime.Valid() && service.Hold() == B.Captured(task) && d.Dispatch?
      requires c.evidence.Evidence?
      requires service.Phase().Idle? || service.Phase().Done?
      modifies service.site, service.site.store, service.site.executions, service.runtime
      ensures Valid() && old(service.site.trace) <= service.site.trace
      ensures ClaimedAt(|old(service.site.trace)|, c)
      ensures service.Own() == old(service.Own()) + Redispatching(service.me, d, task, redo, ending, c)
      ensures RedoFits(redo, d, ending)
      ensures Carried(old(service.site.world).business.rows.tasks, reply, ending, task, d, c,
                      |old(service.site.trace)| + 1)
      ensures old(service.Alone()) ==>
                Foreseen(AfterClaim(old(service.site.world), c), redo, ending, ClaimOf(task, c.writeNow), d, c)
      ensures reply.Ok? ==> Honest(reply.value, moved)
      ensures service.RuntimeCalled(task.id, EntryOf(d, c.evidence), c.outside, TakenBy(ending))
    {
      ghost var own := service.Own();
      var claim, won := Claim(task, c.writeNow, c.writeFault);
      if won == Ok(true) {
        reply, redo, ending, moved := Continue(claim, d, c);
        Joined(service.me, own, d, task, redo, ending, c);
      } else {
        reply := if won.Err? then Err(won.error) else Ok(STILL_IN_PROGRESS);
        redo, ending, moved := NoRedo, GaveWay, None;
        Joined(service.me, own, d, task, redo, ending, c);
      }
    }

    /** One operator request: classify, then at most one kind of write; every report is honest. */
    method Recover(id: TaskId, capability: Capability, c: Circumstances)
      returns (reply: Result<RecoveryOutcome>, ghost d: Decision, ghost r: Reading, ghost at: Moments,
               ghost redo: Redo, ghost ending: Ending, ghost moved: Option<Move>)
      requires Valid() && service.runtime.Valid() && (service.Hold().Free? || service.Hold().Captured?)
      requires service.Phase().Idle? || service.Phase().Done?
      modifies service.site, service.site.store, service.site.executions, service.runtime
      ensures Valid() && old(service.site.trace) <= service.site.trace
      ensures d == Classify(id, r, capability) && r.evidence == c.evidence && r.cutoff == Cutoff(c)
      ensures r.task.Some? ==> r.task.value.id == id && HeldAt(at.decided, r.task.value)
      ensures |old(service.site.trace)| <= at.task && ReadAt(service.site.modes, service.site.trace, id, r, at)
      ensures old(service.Alone()) ==>
                Untouched(old(service.site.world), Moment(service.site.modes, service.site.trace, at.decided), id, r)
      ensures service.Own() == old(service.Own()) + Reads(service.me, id, r.task)
                               + Deeds(service.me, d, r.task, redo, ending, c)
      ensures RedoFits(redo, d, ending) && (!d.Dispatch? ==> ending.GaveWay?)
      ensures Reported(reply, d, r.task, c)
      ensures at.decided <= |service.site.trace| && (d.Dispatch? ==> ClaimedAt(at.decided, c))
      ensures d.Dispatch? ==>
                r.task.Some? && Carried(Moment(service.site.modes, service.site.trace, at.decided).business.rows.tasks,
                                                      reply, ending, r.task.value, d, c, at.decided + 1)
      ensures old(service.Alone()) && d.Dispatch? ==>
                Foreseen(AfterClaim(Moment(service.site.modes, service.site.trace, at.decided), c), redo, ending,
                         ClaimOf(r.task.value, c.writeNow), d, c)
      ensures reply == Ok(RECOVERED) ==> Moved(moved, {SUCCEEDED, WAITING_APPROVAL})
      ensures reply == Ok(RecoveryOutcome.RECOVERY_REQUIRED) ==>
                || (r.task.Some? && r.task.value.status == TaskStatus.RECOVERY_REQUIRED)
                || Moved(moved, {TaskStatus.RECOVERY_REQUIRED})
      ensures reply == Ok(NO_ACTION) || Closed(r.task) ==> Deeds(service.me, d, r.task, redo, ending, c) == []
      ensures d.Dispatch? ==>
                c.evidence.Evidence? && service.RuntimeCalled(id, EntryOf(d, c.evidence), c.outside, TakenBy(ending))
      ensures !d.Dispatch? ==> unchanged(service.runtime)
      ensures TooRecent(id, r, c) ==>
                reply == Ok(STILL_IN_PROGRESS) && service.Own() == old(service.Own()) + Reads(service.me, id, r.task)
    {
      var cutoff := c.clock - c.staleAfter;
      var decision, task;
      decision, task, r, at := Assess(id, c.evidence, cutoff, capability);
      d := decision;
      DecisionFits(id, r, capability);
      ghost var assessed := service.site.trace;
      ShownNow();
      ghost var own := service.Own();
      reply, redo, ending, moved := Act(decision, task, c);
      ReadingStays(id, r, at, assessed);
      RecentEnds(service.me, id, r, capability, c, own, redo, ending, reply);
    }

    /** Nothing follows the reading of what is too recent. */
    lemma RecentEnds(me: ActorId, id: TaskId, r: Reading, capability: Capability, c: Circumstances, own: seq<D.Step>,
                     redo: Redo, ending: Ending, reply: Result<RecoveryOutcome>)
      requires r.cutoff == Cutoff(c) && Reported(reply, Classify(id, r, capability), r.task, c)
      ensures TooRecent(id, r, c) ==> reply == Ok(STILL_IN_PROGRESS)
      ensures TooRecent(id, r, c) ==> own + Deeds(me, Classify(id, r, capability), r.task, redo, ending, c) == own
    {
      WaitsForTheRecent(id, r, capability, c);
    }

    /** Carry out a decision. */
    method Act(d: Decision, task: Option<TaskRow>, c: Circumstances)
      returns (reply: Result<RecoveryOutcome>, ghost redo: Redo, ghost ending: Ending, ghost moved: Option<Move>)
      requires Valid() && service.runtime.Valid() && Fits(d, task, c.evidence)
      requires task.Some? ==> service.Hold() == B.Captured(task.value)
      requires service.Phase().Idle? || service.Phase().Done?
      modifies service.site, service.site.store, service.site.executions, service.runtime
      ensures Valid() && old(service.site.trace) <= service.site.trace
      ensures service.Own() == old(service.Own()) + Deeds(service.me, d, task, redo, ending, c)
      ensures RedoFits(redo, d, ending) && (!d.Dispatch? ==> ending.GaveWay?)
      ensures Reported(reply, d, task, c)
      ensures reply == Ok(NO_ACTION) || Closed(task) ==> Deeds(service.me, d, task, redo, ending, c) == []
      ensures d.Dispatch? ==> ClaimedAt(|old(service.site.trace)|, c)
      ensures d.Dispatch? ==> Carried(old(service.site.world).business.rows.tasks, reply, ending, task.value, d, c,
                                      |old(service.site.trace)| + 1)
      ensures old(service.Alone()) && d.Dispatch? ==>
                Foreseen(AfterClaim(old(service.site.world), c), redo, ending, ClaimOf(task.value, c.writeNow), d, c)
      ensures reply == Ok(RECOVERED) ==> Moved(moved, {SUCCEEDED, WAITING_APPROVAL})
      ensures reply == Ok(RecoveryOutcome.RECOVERY_REQUIRED) ==>
                || (task.Some? && task.value.status == TaskStatus.RECOVERY_REQUIRED)
                || Moved(moved, {TaskStatus.RECOVERY_REQUIRED})
      ensures d.Dispatch? ==> service.RuntimeCalled(task.value.id, EntryOf(d, c.evidence), c.outside, TakenBy(ending))
      ensures !d.Dispatch? ==> unchanged(service.runtime)
    {
      if d.Dispatch? {
        reply, redo, ending, moved := Redispatch(task.value, d, c);
      } else {
        redo, ending := NoRedo, GaveWay;
        reply, moved := Settle(d, task, c);
      }
    }

    /** Decisions that end without a new claim. */
    method Settle(d: Decision, task: Option<TaskRow>, c: Circumstances)
      returns (reply: Result<RecoveryOutcome>, ghost moved: Option<Move>)
      requires Valid() && !d.Dispatch? && Fits(d, task, c.evidence)
      requires task.Some? ==> service.Hold() == B.Captured(task.value)
      modifies service.site, service.site.store
      ensures Valid() && old(service.site.trace) <= service.site.trace
      ensures service.Own() == old(service.Own()) + Answering(service.me, d, task, c)
      ensures Reported(reply, d, task, c)
      ensures reply == Ok(NO_ACTION) ==> Quiet(d)
      ensures reply == Ok(RECOVERED) ==> Moved(moved, {SUCCEEDED, WAITING_APPROVAL})
      ensures reply == Ok(RecoveryOutcome.RECOVERY_REQUIRED) ==>
                || (task.Some? && task.value.status == TaskStatus.RECOVERY_REQUIRED)
                || Moved(moved, {TaskStatus.RECOVERY_REQUIRED})
    {
      moved := None;
      match d {
        case Nothing => reply := Ok(NO_ACTION);
        case OrphanCheckpoint => reply := Ok(ORPHAN_CHECKPOINT);
        case InProgress => reply := Ok(STILL_IN_PROGRESS);
        case Review(orphan) => reply, moved := Required(task.value, orphan, c.requiredNow, c.requiredFault);
        case Conclude(answer) => reply, moved := Finish(task.value, answer, c.writeNow, c.writeFault);
      }
    }

    lemma ShownNow()
      requires Valid()
      ensures Moment(service.site.modes, service.site.trace, |service.site.trace|) == service.site.world
    {
      assert service.site.trace[..|service.site.trace|] == service.site.trace;
    }

    lemma ReadingStays(id: TaskId, r: Reading, at: Moments, earlier: seq<D.Step>)
      requires earlier <= service.site.trace && ReadAt(service.site.modes, earlier, id, r, at)
      ensures ReadAt(service.site.modes, service.site.trace, id, r, at)
      ensures Moment(service.site.modes, service.site.trace, at.decided) ==
                Moment(service.site.modes, earlier, at.decided)
    {
      MomentStays(service.site.modes, earlier, service.site.trace, at.task);
      MomentStays(service.site.modes, earlier, service.site.trace, at.rows);
      MomentStays(service.site.modes, earlier, service.site.trace, at.approvals);
      MomentStays(service.site.modes, earlier, service.site.trace, at.decided);
    }
  }
}
