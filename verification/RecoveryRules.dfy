/** How operator recovery classifies a Task (backend/app/tasks/recovery.py), and exactly when it can
    finish an approved step that a crash left behind. */
module RecoveryRules {
  import opened Values
  import opened TaskModel
  import A = ApprovalModel
  import L = LedgerModel
  import S = BusinessStore
  import E = ExecutionProtocol
  import LI = LedgerInvariant
  import D = Deployment
  import opened AgentGraph
  import opened GraphRuns
  import R = AgentRuntime
  import DR = DurableRun

  datatype Decision =
    | Nothing                                  // NO_ACTION
    | OrphanCheckpoint
    | InProgress
    | Review(orphan: bool)                     // hand the Task to a human
    | Conclude(answer: string)                 // the workflow ended, only the Task row is behind
    | Dispatch(approval: ApprovalId, call: ToolCall, execution: Option<L.ToolExecution>, atPause: bool)

  /** What recovery reads, in the order in which it reads it. */
  datatype Reading = Reading(task: Option<TaskRow>, evidence: R.Evidence, cutoff: Time, rows: L.Ledger,
                             approvals: A.Approvals)

  type Capability = string -> Option<IdempotencyMode>   // None when the tool is not registered

  predicate LiveRow(rows: L.Ledger, task: TaskId, cutoff: Time) {
    exists slot | slot in rows :: slot.task == task && rows[slot].updatedAt > cutoff
  }

  predicate Retryable(mode: Option<IdempotencyMode>) {
    mode == Some(EXTERNAL_KEY) || mode == Some(INHERENT)
  }

  /** The verdict on an approved request that the checkpoint is still about to execute. */
  function ClassifyApproved(id: TaskId, task: TaskRow, cp: Checkpoint, pending: Pending, cutoff: Time, rows: L.Ledger,
                            capability: Capability): Decision {
    var call := pending.call;
    var execution := L.Lookup(rows, L.Slot(id, call.id));
    if task.updatedAt > cutoff || LiveRow(rows, id, cutoff) then InProgress
    else if cp.next.Tool? && cp.state.resumeId != Some(pending.id) then Review(false)
    else if execution.Some? && (execution.value.approvalId != pending.id || execution.value.toolName != call.name
                                || execution.value.arguments != call.arguments) then Review(false)
    else if execution.Some? && execution.value.status.FAILED? then Review(false)
    else if execution.Some? && !execution.value.status.SUCCEEDED? && !Retryable(capability(call.name)) then Review(false)
    else Dispatch(pending.id, call, execution, cp.next.ApprovalPause?)
  }

  function ClassifyPending(id: TaskId, task: TaskRow, cp: Checkpoint, pending: Pending, r: Reading,
                           capability: Capability): Decision {
    var s := cp.state;
    if s.cursor >= |s.toolCalls| || pending.taskId != id then Review(false)
    else if pending.id !in r.approvals then Review(true)
    else
      var approval := r.approvals[pending.id];
      var call := s.toolCalls[s.cursor];
      if !approval.Covers(id, call) || pending.call != call then Review(false)
      else if task.status.WAITING_APPROVAL? && approval.status.PENDING? && cp.next.ApprovalPause? then Nothing
      else if !approval.status.APPROVED? then Review(approval.status.REJECTED?)
      else if !task.status.RUNNING? && !task.status.RECOVERY_REQUIRED? then Review(false)
      else ClassifyApproved(id, task, cp, pending, r.cutoff, r.rows, capability)
  }

  function ClassifyOpen(id: TaskId, task: TaskRow, cp: Checkpoint, r: Reading, capability: Capability): Decision {
    var s := cp.state;
    if s.taskId != id then Review(false)
    else if cp.next.End? then
      if LiveRow(r.rows, id, r.cutoff) then InProgress
      else if task.status.RUNNING? && s.finalAnswer.Some? && !Blank(s.finalAnswer.value) then Conclude(s.finalAnswer.value)
      else Review(false)
    else if cp.next.Llm? || s.pending.None? then Review(false)
    else ClassifyPending(id, task, cp, s.pending.value, r, capability)
  }

  function Classify(id: TaskId, r: Reading, capability: Capability): Decision {
    if r.task.None? then if r.evidence.Evidence? then OrphanCheckpoint else Nothing
    else
      var task := r.task.value;
      match task.status
      case SUCCEEDED =>
        if r.evidence.NoEvidence? then Nothing
        else
          var cp := r.evidence.checkpoint;
          if cp.next.End? && cp.state.taskId == id && cp.state.finalAnswer == task.result then Nothing
          else OrphanCheckpoint
      case FAILED => if r.evidence.NoEvidence? then Nothing else OrphanCheckpoint
      case REJECTED => if r.evidence.NoEvidence? then Nothing else OrphanCheckpoint
      case PENDING => if r.evidence.NoEvidence? then Nothing else OrphanCheckpoint
      case _ =>
        if task.status.RUNNING? && task.updatedAt > r.cutoff then InProgress
        else if r.evidence.NoEvidence? then Review(false)
        else ClassifyOpen(id, task, r.evidence.checkpoint, r, capability)
  }

  /* ---- what each decision means ---- */

  /** A Task that is still open, and a checkpoint of its own workflow. */
  predicate Evidenced(id: TaskId, r: Reading) {
    && r.task.Some? && r.task.value.status in {RUNNING, WAITING_APPROVAL, TaskStatus.RECOVERY_REQUIRED}
    && r.evidence.Evidence? && r.evidence.checkpoint.state.taskId == id
  }

  /** A Task that somebody may be working on. */
  predicate Running(r: Reading) {
    r.task.Some? && r.task.value.status == RUNNING && r.task.value.updatedAt > r.cutoff
  }

  /** The checkpoint waits before or in the tool node for a request about the call at its cursor. */
  predicate Requested(id: TaskId, r: Reading) {
    && Evidenced(id, r)
    && var cp := r.evidence.checkpoint;
       && cp.next in {ApprovalPause, Tool} && cp.state.pending.Some?
       && cp.state.cursor < |cp.state.toolCalls| && cp.state.pending.value.taskId == id
  }

  /** The request was stored, and it is about that call. */
  predicate Correlated(id: TaskId, r: Reading) {
    && Requested(id, r)
    && var s := r.evidence.checkpoint.state;
       var p, call := s.pending.value, s.toolCalls[s.cursor];
       p.id in r.approvals && r.approvals[p.id].Covers(id, call) && p.call == call
  }

  function Verdict(r: Reading): A.ApprovalStatus
    requires r.evidence.Evidence? && r.evidence.checkpoint.state.pending.Some?
    requires r.evidence.checkpoint.state.pending.value.id in r.approvals
  {
    r.approvals[r.evidence.checkpoint.state.pending.value.id].status
  }

  /** The approved call of a Task that may be continued. */
  predicate Granted(id: TaskId, r: Reading) {
    && Correlated(id, r) && Verdict(r) == A.APPROVED
    && r.task.value.status in {RUNNING, TaskStatus.RECOVERY_REQUIRED}
  }

  /** What the ledger may hold for the call. */
  predicate Repeatable(id: TaskId, r: Reading, call: ToolCall, approval: ApprovalId, capability: Capability) {
    var slot := L.Slot(id, call.id);
    slot in r.rows ==>
      && r.rows[slot].approvalId == approval && r.rows[slot].toolName == call.name
      && r.rows[slot].arguments == call.arguments
      && (r.rows[slot].status == L.SUCCEEDED
          || (r.rows[slot].status in {L.EXECUTING, L.UNKNOWN}
              && capability(call.name) in {Some(EXTERNAL_KEY), Some(INHERENT)}))
  }

  /** Leftovers: a workflow whose Task does not exist, never started, or ended otherwise. */
  predicate Orphaned(id: TaskId, r: Reading) {
    r.evidence.Evidence? && (r.task.None? || match r.task.value.status
      case PENDING => true
      case FAILED => true
      case REJECTED => true
      case SUCCEEDED =>
        var cp := r.evidence.checkpoint;
        !(cp.next == End && cp.state.taskId == id && cp.state.finalAnswer == r.task.value.result)
      case _ => false)
  }

  /** Each decision, by all that must be the case for it. */
  lemma {:induction false} DecisionMeans(id: TaskId, r: Reading, capability: Capability)
    ensures var d, cp := Classify(id, r, capability), if r.evidence.Evidence? then r.evidence.checkpoint
                                                      else Initial(id, [], 0);
            && (d == OrphanCheckpoint <==> Orphaned(id, r))
            && (d == InProgress <==>
                  || Running(r)
                  || (Evidenced(id, r) && cp.next == End && LiveRow(r.rows, id, r.cutoff))
                  || (Granted(id, r) && (r.task.value.updatedAt > r.cutoff || LiveRow(r.rows, id, r.cutoff))))
            && (d.Conclude? <==>
                  && Evidenced(id, r) && r.task.value.status == RUNNING && !Running(r) && cp.next == End
                  && !LiveRow(r.rows, id, r.cutoff) && cp.state.finalAnswer.Some? && !Blank(cp.state.finalAnswer.value))
            && (d.Conclude? ==> cp.state.finalAnswer == Some(d.answer))
            && (d.Dispatch? <==>
                  && Granted(id, r) && r.task.value.updatedAt <= r.cutoff && !LiveRow(r.rows, id, r.cutoff)
                  && (cp.next == Tool ==> cp.state.resumeId == Some(cp.state.pending.value.id))
                  && Repeatable(id, r, cp.state.toolCalls[cp.state.cursor], cp.state.pending.value.id, capability))
            && (d.Dispatch? ==>
                  && d.approval == cp.state.pending.value.id && d.call == cp.state.toolCalls[cp.state.cursor]
                  && d.execution == L.Lookup(r.rows, L.Slot(id, d.call.id)) && (d.atPause <==> cp.next == ApprovalPause))
  {
  }

  /** The decisions that change no Task but by a hand-over. */
  lemma {:induction false} RefusalMeans(id: TaskId, r: Reading, capability: Capability)
    ensures var d, cp := Classify(id, r, capability), if r.evidence.Evidence? then r.evidence.checkpoint
                                                      else Initial(id, [], 0);
            && (d == Nothing <==>
                  || (r.evidence.NoEvidence? && (r.task.None? || r.task.value.status == TaskStatus.PENDING
                                                 || Terminal(r.task.value.status)))
                  || (r.evidence.Evidence? && r.task.Some? && r.task.value.status == SUCCEEDED && !Orphaned(id, r))
                  || (Correlated(id, r) && r.task.value.status == WAITING_APPROVAL && Verdict(r) == A.PENDING
                      && cp.next == ApprovalPause))
            && (d == Review(true) <==>
                  && Requested(id, r) && !Running(r)
                  && (cp.state.pending.value.id !in r.approvals || (Correlated(id, r) && Verdict(r) == A.REJECTED)))
  {
  }

  /** Between the committed approval and the checkpoint of the tool node, with everything quiet. */
  ghost predicate QuietWindow(f: DR.Flow, cutoff: Time) {
    var s, b := f.cp.state, f.world.business.rows;
    && (f.cp.next.ApprovalPause? || f.cp.next.Tool?)
    && s.pending.Some? && s.pending.value.id in b.approvals && b.approvals[s.pending.value.id].status.APPROVED?
    && s.taskId in b.tasks && (b.tasks[s.taskId].status.RUNNING? || b.tasks[s.taskId].status.RECOVERY_REQUIRED?)
    && b.tasks[s.taskId].updatedAt <= cutoff
    && !LiveRow(f.world.ledger.core.rows, s.taskId, cutoff)
  }

  /** What the ledger may hold for the call so that recovery can go on: nothing, a success, or an abandoned
      attempt of a retryable tool, always under this approval. */
  predicate Continuable(rows: L.Ledger, slot: L.Slot, approval: ApprovalId, mode: IdempotencyMode) {
    slot !in rows
    || (rows[slot].approvalId == approval
        && (rows[slot].status.SUCCEEDED? || ((rows[slot].status.EXECUTING? || rows[slot].status.UNKNOWN?) && !mode.NONE?)))
  }

  /** What recovery reads of the flow when nobody else is at work. */
  function ReadingOf(f: DR.Flow, checkpointId: nat, cutoff: Time): Reading {
    var b := f.world.business.rows;
    Reading(if f.cp.state.taskId in b.tasks then Some(b.tasks[f.cp.state.taskId]) else None,
            R.Evidence(checkpointId, f.cp), cutoff, f.world.ledger.core.rows, b.approvals)
  }

  lemma {:induction false} ClassifiedInWindow(g: DR.Setting, base: seq<Message>, f: DR.Flow, checkpointId: nat,
                                              cutoff: Time, capability: Capability)
    requires DR.Inv(g, base, f) && QuietWindow(f, cutoff)
    requires capability(f.cp.state.pending.value.call.name) == Some(g.modes(f.cp.state.pending.value.call.name))
    ensures var p, rows := f.cp.state.pending.value, f.world.ledger.core.rows;
            var slot := L.Slot(f.cp.state.taskId, p.call.id);
            Classify(f.cp.state.taskId, ReadingOf(f, checkpointId, cutoff), capability) ==
              if Continuable(rows, slot, p.id, g.modes(p.call.name))
              then Dispatch(p.id, p.call, L.Lookup(rows, slot), f.cp.next.ApprovalPause?) else Review(false)
  {
    var id, p := f.cp.state.taskId, f.cp.state.pending.value;
    var r := ReadingOf(f, checkpointId, cutoff);
    var task := f.world.business.rows.tasks[id];
    assert Classify(id, r, capability) == ClassifyOpen(id, task, f.cp, r, capability);
    assert ClassifyOpen(id, task, f.cp, r, capability) == ClassifyApproved(id, task, f.cp, p, cutoff, r.rows,
                                                                           capability);
    RowUnderApproval(g.modes, f.world, L.Slot(id, p.call.id), p);
  }

  /** A row claimed under this approval was claimed for exactly the approved call. */
  lemma RowUnderApproval(modes: E.Modes, w: D.World, slot: L.Slot, p: Pending)
    requires D.Inv(modes, w)
    requires p.id in w.business.rows.approvals && w.business.rows.approvals[p.id].Covers(p.taskId, p.call)
    ensures slot in w.ledger.core.rows && w.ledger.core.rows[slot].approvalId == p.id ==>
              w.ledger.core.rows[slot].Call() == p.call
  {
    assert LI.CellOk(modes, w.business.rows.approvals, slot, LI.CellAt(w.ledger.core, slot));
  }

  /** With nobody else at work the claim of the Task and of an abandoned row are both granted. */
  lemma ClaimsAreGranted(modes: E.Modes, w: D.World, task: TaskId, slot: L.Slot, cutoff: Time, now: Time)
    requires D.Inv(modes, w) && task in w.business.rows.tasks && w.business.rows.tasks[task].updatedAt <= now
    requires w.business.rows.tasks[task].status.RUNNING? || w.business.rows.tasks[task].status.RECOVERY_REQUIRED?
    requires slot in w.ledger.core.rows ==> w.ledger.core.rows[slot].updatedAt <= cutoff
    ensures var tasks, rows := w.business.rows.tasks, w.ledger.core.rows;
            && Transition(ClaimRecovery, tasks[task], now).Ok?
            && S.ReconcileReply(tasks, Transition(ClaimRecovery, tasks[task], now).value, tasks[task], Fine) == Ok(true)
            && (slot in rows && !rows[slot].Settled() ==>
                  L.ReclaimReply(rows, rows[slot], cutoff, now, Fine) ==
                    Ok(Some(L.Renewal(rows[slot], rows[slot], now))))
  {
    assert LI.CellOk(modes, w.business.rows.approvals, slot, LI.CellAt(w.ledger.core, slot));
    TransitionIsSound(ClaimRecovery, w.business.rows.tasks[task], now);
  }

  /** In every state of the window recovery dispatches exactly when the ledger row allows it; its claim
      wins, the stored correlation passes, and an abandoned attempt can be claimed again. */
  lemma {:induction false} WindowIsRecoverable(g: DR.Setting, task: TaskId, messages: seq<Message>, maxSteps: nat,
                                               world: D.World, moves: seq<DR.Move>,
                            checkpointId: nat, cutoff: Time, now: Time, capability: Capability)
    requires D.Inv(g.modes, world)
    requires var f := DR.Follow(g, DR.Begin(task, messages, maxSteps, world), moves);
             && QuietWindow(f, cutoff)
             && capability(f.cp.state.pending.value.call.name) == Some(g.modes(f.cp.state.pending.value.call.name))
             && f.world.business.rows.tasks[f.cp.state.taskId].updatedAt <= now
    ensures var f := DR.Follow(g, DR.Begin(task, messages, maxSteps, world), moves);
            var b, rows, p := f.world.business.rows, f.world.ledger.core.rows, f.cp.state.pending.value;
            var slot := L.Slot(task, p.call.id);
            var decision := Classify(task, ReadingOf(f, checkpointId, cutoff), capability);
            && f.cp.state.taskId == task && task in b.tasks
            && (decision.Dispatch? <==> Continuable(rows, slot, p.id, g.modes(p.call.name)))
            && (decision.Dispatch? ==>
                  && decision == Dispatch(p.id, p.call, L.Lookup(rows, slot), f.cp.next.ApprovalPause?)
                  && DR.MayResume(f)
                  && (f.cp.next.Tool? ==> f.cp.state.resumeId == Some(p.id))
                  && Transition(ClaimRecovery, b.tasks[task], now).Ok?
                  && S.ReconcileReply(b.tasks, Transition(ClaimRecovery, b.tasks[task], now).value, b.tasks[task], Fine) == Ok(true)
                  && (slot in rows && !rows[slot].Settled() ==>
                        L.ReclaimReply(rows, rows[slot], cutoff, now, Fine) ==
                          Ok(Some(L.Renewal(rows[slot], rows[slot], now)))))
  {
    var start := DR.Begin(task, messages, maxSteps, world);
    DR.BeginHolds(g, task, messages, maxSteps, world);
    DR.FollowKeeps(g, messages, start, moves);
    var f := DR.Follow(g, start, moves);
    ClassifiedInWindow(g, messages, f, checkpointId, cutoff, capability);
    ClaimsAreGranted(g.modes, f.world, task, L.Slot(task, f.cp.state.pending.value.call.id), cutoff, now);
  }
}
