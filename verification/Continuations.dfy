/** How a workflow ended, as it was stored, is what the Task row comes to say (backend/app/tasks/service.py,
    backend/app/tasks/resume.py, backend/app/tasks/recovery.py). */
module Continuations {
  import opened Values
  import opened TaskModel
  import A = ApprovalModel
  import B = BusinessProtocol
  import E = ExecutionProtocol
  import D = Deployment
  import G = AgentGraph
  import R = AgentRuntime
  import L = LedgerModel
  import O = ToolOutcomes
  import X = ApprovedExecution
  import RR = RecoveryRules
  import F = FinalAnswers
  import opened Invocations
  import opened Site
  import opened TaskServices
  import TR = TaskRecovery

  /** The result of a SUCCEEDED Task is the final answer of its stored workflow, which has ended. */
  ghost predicate Agrees(b: B.Business, saved: R.Saver, task: TaskId) {
    F.Succeeded(b, task) ==> b.rows.tasks[task].result.Some? && EndedWith(saved, task, b.rows.tasks[task].result.value)
  }

  /** A success that a step tries to write. */
  predicate Succeeds(step: D.Step) {
    step.OnBusiness? && step.business.Write? && step.business.op.Succeed?
  }

  lemma {:induction false} ResultStays(modes: E.Modes, trace: seq<D.Step>, longer: seq<D.Step>, task: TaskId)
    requires trace <= longer && F.Succeeded(D.Run(modes, D.INITIAL, trace).business, task)
    ensures F.Succeeded(D.Run(modes, D.INITIAL, longer).business, task)
    ensures D.Run(modes, D.INITIAL, longer).business.rows.tasks[task] ==
              D.Run(modes, D.INITIAL, trace).business.rows.tasks[task]
  {
    D.Longer(modes, trace, longer);
  }

  lemma {:induction false} LastStepSucceeds(modes: E.Modes, trace: seq<D.Step>, step: D.Step, task: TaskId)
    requires !F.Succeeded(D.Run(modes, D.INITIAL, trace).business, task)
    requires F.Succeeded(D.Next(modes, D.Run(modes, D.INITIAL, trace), step).business, task)
    ensures F.Concludes(D.Run(modes, D.INITIAL, trace).business, step, task)
    ensures D.Next(modes, D.Run(modes, D.INITIAL, trace), step).business.rows.tasks[task].result ==
              Some(step.business.op.content)
  {
    D.Reachable(modes, trace);
    if step.OnBusiness? {
      F.SuccessIsWritten(D.Run(modes, D.INITIAL, trace).business, step.business, task);
    }
  }

  /** A Task that became SUCCEEDED did so by one step, and shows its content ever after. */
  lemma {:induction false} SuccessHasAStep(modes: E.Modes, trace: seq<D.Step>, longer: seq<D.Step>, task: TaskId)
    returns (k: nat)
    requires trace <= longer
    requires !F.Succeeded(D.Run(modes, D.INITIAL, trace).business, task)
    requires F.Succeeded(D.Run(modes, D.INITIAL, longer).business, task)
    ensures |trace| <= k < |longer| && F.Concludes(D.Run(modes, D.INITIAL, longer[..k]).business, longer[k], task)
    ensures D.Run(modes, D.INITIAL, longer).business.rows.tasks[task].result == Some(longer[k].business.op.content)
  {
    assert longer != trace;
    var init := longer[..|longer| - 1];
    if F.Succeeded(D.Run(modes, D.INITIAL, init).business, task) {
      k := SuccessHasAStep(modes, trace, init, task);
      assert longer[..k] == init[..k];
      ResultStays(modes, init, longer, task);
    } else {
      k := |longer| - 1;
      LastStepSucceeds(modes, init, Last(longer), task);
    }
  }

  /* ---- rely and guarantee ---- */

  /** What each service guarantees: every success that it tried to write carries the answer of the stored workflow. */
  ghost predicate OwnReport(me: ActorId, trace: seq<D.Step>, longer: seq<D.Step>, task: TaskId, saved: R.Saver) {
    forall k | |trace| <= k < |longer| && By(me, longer[k]) && Succeeds(longer[k]) ::
      EndedWith(saved, task, longer[k].business.op.content)
  }

  /** What it relies on: so does every success of this Task that others tried to write meanwhile. */
  ghost predicate OthersReport(modes: E.Modes, me: ActorId, trace: seq<D.Step>, longer: seq<D.Step>, task: TaskId,
                               saved: R.Saver) {
    forall k | |trace| <= k < |longer| && !By(me, longer[k]) ::
      F.Concludes(D.Run(modes, D.INITIAL, longer[..k]).business, longer[k], task) ==>
        EndedWith(saved, task, longer[k].business.op.content)
  }

  /** Then row and workflow go on agreeing. */
  lemma {:induction false} AgreementKept(modes: E.Modes, me: ActorId, trace: seq<D.Step>, longer: seq<D.Step>,
                                         task: TaskId,
                                         before: R.Saver, after: R.Saver)
    requires trace <= longer && OwnReport(me, trace, longer, task, after)
    requires OthersReport(modes, me, trace, longer, task, after)
    requires forall content :: EndedWith(before, task, content) ==> EndedWith(after, task, content)
    requires Agrees(D.Run(modes, D.INITIAL, trace).business, before, task)
    ensures Agrees(D.Run(modes, D.INITIAL, longer).business, after, task)
  {
    if F.Succeeded(D.Run(modes, D.INITIAL, trace).business, task) {
      ResultStays(modes, trace, longer, task);
    } else if F.Succeeded(D.Run(modes, D.INITIAL, longer).business, task) {
      var k := SuccessHasAStep(modes, trace, longer, task);
    }
  }

  /** The guarantee in terms of an actor's own steps. */
  lemma {:induction false} OwnStepsReport(me: ActorId, trace: seq<D.Step>, longer: seq<D.Step>, own: seq<D.Step>,
                                          task: TaskId, saved: R.Saver)
    requires trace <= longer && Mine(me, longer) == Mine(me, trace) + own
    requires forall step | step in own && Succeeds(step) :: EndedWith(saved, task, step.business.op.content)
    ensures OwnReport(me, trace, longer, task, saved)
  {
    forall k | |trace| <= k < |longer| && By(me, longer[k]) && Succeeds(longer[k])
      ensures EndedWith(saved, task, longer[k].business.op.content)
    {
      AddedStep(me, trace, longer, own, k);
    }
  }

  /** An answered workflow is not invoked again. */
  lemma AnswersStay(before: R.Saver, after: R.Saver, task: TaskId, entry: Entry, maxSteps: nat, o: Outside, v: Visit)
    requires Visited(before, after, task, entry, maxSteps, o, v)
    ensures forall content :: EndedWith(before, task, content) ==> EndedWith(after, task, content)
  {
  }

  /** The successes among the exits of a continuation. */
  lemma ExitsSucceed(me: ActorId, ending: Invoked, w: Weather, reply: Result<TaskRow>, step: D.Step)
    requires step in Exits(me, ending, w, reply) && Succeeds(step)
    ensures ending == Finished(step.business.op.content)
  {
  }

  /** What a continuation reports is what the stored workflow shows: the answer at its end, or the request at its
      pause. */
  ghost predicate BackedByWorkflow(saved: R.Saver, row: TaskRow, approvals: A.Approvals) {
    match row.status
    case SUCCEEDED => row.result.Some? && EndedWith(saved, row.id, row.result.value)
    case WAITING_APPROVAL =>
      && R.Stored(saved, row.id) && R.Latest(saved, row.id).next.ApprovalPause?
      && R.Latest(saved, row.id).state.pending.Some?
      && var p := R.Latest(saved, row.id).state.pending.value;
         p.id in approvals && approvals[p.id].Covers(p.taskId, p.call) && approvals[p.id].status.PENDING?
    case _ => false
  }

  lemma AcknowledgedIsBacked(service: TaskExecutionService, expected: TaskRow, v: Visit, row: TaskRow)
    requires service.site.Valid() && service.Acknowledged(expected, v.Ending(), row)
    requires ShownBy(service.runtime.saved, row.id, v.said)
    ensures BackedByWorkflow(service.runtime.saved, row, service.site.store.approvals)
  {
  }

  /* ---- the services with the runtime that they call ---- */

  lemma {:induction false} ExecuteReports(me: ActorId, trace: seq<D.Step>, longer: seq<D.Step>, birth: Birth,
                                          id: TaskId,
                                          after: R.Saver, w: Weather, reply: Result<TaskRow>, v: Visit)
    requires trace <= longer
    requires Mine(me, longer) == Mine(me, trace) + birth.Steps(me, id)
                                 + (if birth.Starts() then Exits(me, v.Ending(), w, reply) else [])
    requires birth.Starts() ==> ShownBy(after, id, v.said)
    ensures OwnReport(me, trace, longer, id, after)
  {
    var exits := if birth.Starts() then Exits(me, v.Ending(), w, reply) else [];
    var own := birth.Steps(me, id) + exits;
    Regroup(Mine(me, trace), birth.Steps(me, id), exits);
    assert forall step | step in birth.Steps(me, id) :: !Succeeds(step);
    forall step | step in own && Succeeds(step) ensures EndedWith(after, id, step.business.op.content) {
      ExitsSucceed(me, v.Ending(), w, reply, step);
    }
    OwnStepsReport(me, trace, longer, own, id, after);
  }

  /** Execute a new Task: others reporting no other answer, its row says what its workflow answered. */
  method Execute(service: TaskExecutionService, birth: Birth, o: Outside, w: Weather)
    returns (reply: Result<TaskRow>, id: TaskId, ghost v: Visit)
    requires service.site.Valid() && service.Hold() == B.Free && service.runtime.Valid()
    modifies service.site, service.site.store, service.site.executions, service.runtime
    ensures service.site.Valid() && old(service.site.trace) <= service.site.trace
    ensures id !in old(service.site.store.tasks)
    ensures reply.Ok? ==> BackedByWorkflow(service.runtime.saved, reply.value, service.site.store.approvals)
    ensures OwnReport(service.me, old(service.site.trace), service.site.trace, id, service.runtime.saved)
    ensures OthersReport(service.site.modes, service.me, old(service.site.trace), service.site.trace, id, service.runtime.saved) ==>
              Agrees(service.site.world.business, service.runtime.saved, id)
  {
    ghost var trace, met := service.site.trace, 0;
    reply, id, met, v := service.Execute(birth, o, w);
    ghost var saved := service.runtime.saved;
    ExecuteReports(service.me, trace, service.site.trace, birth, id, saved, w, reply, v);
    if OthersReport(service.site.modes, service.me, trace, service.site.trace, id, saved) {
      AgreementKept(service.site.modes, service.me, trace, service.site.trace, id, map[], saved);
    }
  }

  lemma {:induction false} DecideReports(me: ActorId, trace: seq<D.Step>, longer: seq<D.Step>, act: B.Action,
                                         dispatched: bool,
                                         resumes: bool, t: Taken, task: TaskId, after: R.Saver, w: Weather)
    requires act.Decide? && trace <= longer
    requires Mine(me, longer) == Mine(me, trace) + [D.OnBusiness(act)]
                                 + (if dispatched then Continuing(me, resumes, t, w) else [])
    requires dispatched && resumes && t.owned.Some? ==> ShownBy(after, task, t.visit.said)
    ensures OwnReport(me, trace, longer, task, after)
  {
    var more := if dispatched then Continuing(me, resumes, t, w) else [];
    Regroup(Mine(me, trace), [D.OnBusiness(act)], more);
    forall step | step in [D.OnBusiness(act)] + more && Succeeds(step) ensures EndedWith(after, task, step.business.op.content) {
      ExitsSucceed(me, t.visit.Ending(), w, t.reply, step);
    }
    OwnStepsReport(me, trace, longer, [D.OnBusiness(act)] + more, task, after);
  }

  /** Decide, and resume after an approval: others reporting no other answer, the row of the Task and its workflow go
      on agreeing. */
  method Decide(decisions: ApprovalDecisionService, id: ApprovalId, approve: bool, decidedAt: Time, now: Time,
                fault: Fault, o: Outside,
                w: Weather)
    returns (reply: Result<A.ApprovalRow>, ghost at: nat, ghost t: Taken)
    requires decisions.service.site.Valid() && decisions.service.Hold() == B.Free && decisions.service.runtime.Valid()
    modifies decisions.service.site, decisions.service.site.store
    modifies decisions.service.site.executions, decisions.service.runtime
    ensures decisions.service.site.Valid() && old(decisions.service.site.trace) <= decisions.service.site.trace
    ensures at < |decisions.service.site.trace|
    ensures var service, verdict := decisions.service, DecideReply(decisions.service.Seen(at), id, approve, decidedAt,
                                                                   now, fault);
            verdict.Ok? ==>
              && OwnReport(service.me, old(service.site.trace), service.site.trace, verdict.value.1.id,
                           service.runtime.saved)
              && (Agrees(old(service.site.world).business, old(service.runtime.saved), verdict.value.1.id)
                  && OthersReport(service.site.modes, service.me, old(service.site.trace), service.site.trace,
                                  verdict.value.1.id,
                                  service.runtime.saved) ==>
                    Agrees(service.site.world.business, service.runtime.saved, verdict.value.1.id))
  {
    ghost var service := decisions.service;
    ghost var trace, before := service.site.trace, service.runtime.saved;
    reply, at, t := decisions.Decide(id, approve, decidedAt, now, fault, o, w);
    ghost var verdict := DecideReply(service.Seen(at), id, approve, decidedAt, now, fault);
    ghost var after := service.runtime.saved;
    if verdict.Ok? {
      var task, dispatched := verdict.value.1.id, approve && decisions.resumes && t.owned.Some?;
      DecideReports(service.me, trace, service.site.trace, B.Decide(service.me, id, approve, decidedAt, now, fault),
                    approve,
                    decisions.resumes, t, task, after, w);
      if dispatched {
        AnswersStay(before, after, task, AtPause(id), service.runtime.maxSteps, o, t.visit);
      }
      if Agrees(old(service.site.world).business, before, task)
         && OthersReport(service.site.modes, service.me, trace, service.site.trace, task, after) {
        AgreementKept(service.site.modes, service.me, trace, service.site.trace, task, before, after);
      }
    }
  }

  /** A success that carries the answer of the workflow: the one that recovery read, or the one that its resume was
      given. */
  predicate Fitting(d: RR.Decision, t: Taken, step: D.Step)
    requires Succeeds(step)
  {
    if d.Dispatch? then t.owned.Some? && t.visit.Ending() == Finished(step.business.op.content)
    else d.Conclude? && d.answer == step.business.op.content
  }

  /** The successes among the transactions of a recovery. */
  lemma {:induction false} DeedsSucceed(me: ActorId, d: RR.Decision, task: Option<TaskRow>, redo: TR.Redo,
                                        ending: TR.Ending, c: TR.Circumstances,
                                        step: D.Step)
    requires step in TR.Deeds(me, d, task, redo, ending, c) && Succeeds(step)
    ensures Fitting(d, TR.TakenBy(ending), step)
  {
    if d.Dispatch? && task.Some? {
      assert step in TR.Tail(me, ending, TR.ClaimOf(task.value, c.writeNow), d.atPause, c);
      if ending.Resumed? && ending.t.owned.Some? && step in Exits(me, ending.t.visit.Ending(), c.weather,
                                                                  ending.t.reply) {
        ExitsSucceed(me, ending.t.visit.Ending(), c.weather, ending.t.reply, step);
      }
    }
  }

  lemma {:induction false} RecoverReports(me: ActorId, trace: seq<D.Step>, longer: seq<D.Step>, id: TaskId,
                                          d: RR.Decision,
                                          task: Option<TaskRow>, redo: TR.Redo, ending: TR.Ending, c: TR.Circumstances,
                                          after: R.Saver)
    requires trace <= longer
    requires Mine(me, longer) == Mine(me, trace) + TR.Reads(me, id, task) + TR.Deeds(me, d, task, redo, ending, c)
    requires d.Conclude? ==> EndedWith(after, id, d.answer)
    requires d.Dispatch? && TR.TakenBy(ending).owned.Some? ==> ShownBy(after, id, TR.TakenBy(ending).visit.said)
    ensures OwnReport(me, trace, longer, id, after)
  {
    var own := TR.Reads(me, id, task) + TR.Deeds(me, d, task, redo, ending, c);
    Regroup(Mine(me, trace), TR.Reads(me, id, task), TR.Deeds(me, d, task, redo, ending, c));
    forall step | step in own && Succeeds(step) ensures EndedWith(after, id, step.business.op.content) {
      DeedsSucceed(me, d, task, redo, ending, c, step);
    }
    OwnStepsReport(me, trace, longer, own, id, after);
  }

  /** Recover with the evidence that the runtime gives: whether recovery concludes the Task or continues it, others
      reporting no other answer, its row and its workflow go on agreeing. */
  method Recover(recovery: TR.TaskRecoveryService, id: TaskId, capability: RR.Capability, c: TR.Circumstances)
    returns (reply: Result<TR.RecoveryOutcome>, ghost d: RR.Decision)
    requires recovery.Valid() && recovery.service.runtime.Valid()
    requires recovery.service.Hold().Free? || recovery.service.Hold().Captured?
    requires recovery.service.Phase().Idle? || recovery.service.Phase().Done?
    modifies recovery.service.site, recovery.service.site.store
    modifies recovery.service.site.executions, recovery.service.runtime
    ensures recovery.Valid() && old(recovery.service.site.trace) <= recovery.service.site.trace
    ensures d.Conclude? ==> EndedWith(old(recovery.service.runtime.saved), id, d.answer)
    ensures OwnReport(recovery.service.me, old(recovery.service.site.trace), recovery.service.site.trace, id,
                      recovery.service.runtime.saved)
    ensures Agrees(old(recovery.service.site.world).business, old(recovery.service.runtime.saved), id)
            && OthersReport(recovery.service.site.modes, recovery.service.me, old(recovery.service.site.trace),
                            recovery.service.site.trace, id, recovery.service.runtime.saved) ==>
              Agrees(recovery.service.site.world.business, recovery.service.runtime.saved, id)
  {
    ghost var service := recovery.service;
    ghost var trace, before := service.site.trace, service.runtime.saved;
    var evidence := recovery.service.runtime.WorkflowEvidence(id);
    var again := recovery.service.runtime.WorkflowEvidence(id);
    var met := c.(evidence := evidence, evidenceAfterClaim := again);
    ghost var r, at, redo, ending, moved;
    reply, d, r, at, redo, ending, moved := recovery.Recover(id, capability, met);
    ghost var after := service.runtime.saved;
    if d.Conclude? {
      F.ConclusionIsFinal(id, r, capability);
    }
    if d.Dispatch? && TR.TakenBy(ending).owned.Some? {
      AnswersStay(before, after, id, TR.EntryOf(d, met.evidence), service.runtime.maxSteps, met.outside,
                  TR.TakenBy(ending).visit);
    }
    RecoverReports(service.me, trace, service.site.trace, id, d, r.task, redo, ending, met, after);
    if Agrees(old(service.site.world).business, before, id)
       && OthersReport(service.site.modes, service.me, trace, service.site.trace, id, after) {
      AgreementKept(service.site.modes, service.me, trace, service.site.trace, id, before, after);
    }
  }

  /* ---- a result that could not be stored ---- */

  /** The runtime stopped before the tool node of this approved call, which the actor has just made. */
  ghost predicate AtTheCall(saved: R.Saver, task: TaskId, approval: ApprovalId, checkpointId: nat, call: ToolCall) {
    && R.StoppedAtTool(saved, task, approval, checkpointId)
    && var s := R.Latest(saved, task).state;
       s.cursor < |s.toolCalls| && s.toolCalls[s.cursor] == call && s.resumeId == Some(approval)
  }

  /** What the tool node makes of an approved call that raised. */
  lemma CallRaises(saved: R.Saver, task: TaskId, approval: ApprovalId, checkpointId: nat, call: ToolCall,
                   env: R.Environment, error: Error)
    requires AtTheCall(saved, task, approval, checkpointId, call) && env.approved(call) == Err(error)
    ensures R.NodeOutcome(R.Latest(saved, task), env, None, env.freshId(1)) == G.Raised(error)
  {
  }

  lemma VisitRaises(before: R.Saver, after: R.Saver, task: TaskId, approval: ApprovalId, checkpointId: nat,
                    call: ToolCall, maxSteps: nat, o: Outside, v: Visit, error: Error)
    requires Visited(before, after, task, AtTool(approval, checkpointId), maxSteps, o, v) && o.authorized
    requires AtTheCall(before, task, approval, checkpointId, call) && o.env.approved(call) == Err(error)
    ensures v.Ending() == Raised(error)
  {
    var i := v.joined.value;
    CallRaises(before, task, approval, checkpointId, call, o.env, error);
    R.FirstNodeRaises(R.Latest(before, task), i.env, i.command, i.limit, i.cp, i.reply, i.nodes, i.turns, error);
  }

  /** The terminal write leaves the Task that this actor holds alone. */
  method WriteResult(executor: X.ApprovedToolExecutionService, service: TaskExecutionService, claim: L.ToolExecution,
                     task: TaskId, approval: ApprovalId, c: X.Conditions) returns (told: E.Reply)
    requires executor.site == service.site && executor.me == service.me && service.site.Valid()
    requires executor.Phase() == E.Called(claim, c.outcome) && X.ClaimFor(claim, approval, task, claim.Call())
    modifies service.site, service.site.executions
    ensures service.site.Valid() && old(service.site.trace) <= service.site.trace
    ensures service.Hold() == old(service.Hold())
    ensures service.Own() == old(service.Own()) + [D.OnLedger(E.Finish(service.me, c.finishNow, c.finishFault))]
    ensures O.Replied(old(service.site.executions.rows), claim, c.outcome, c.finishFault, told)
  {
    ghost var trace := service.site.trace;
    told := executor.Settle(claim, approval, task, claim.Call(), c);
    HoldStays(service.site.modes, service.me, trace, service.site.trace,
              [D.OnLedger(E.Finish(service.me, c.finishNow, c.finishFault))]);
  }

  /** A continuation whose approved call raises an uncertain persistence takes no step. */
  method GoOnFrom(service: TaskExecutionService, task: Task, approval: ApprovalId, checkpointId: nat, call: ToolCall,
                  answer: Result<string>, o: Outside, w: Weather) returns (reply: Result<TaskRow>)
    requires service.site.Valid() && service.runtime.Valid() && o.authorized
    requires service.Hold() == B.Captured(task.Row()) && task.status == RUNNING
    requires AtTheCall(service.runtime.saved, task.id, approval, checkpointId, call) && o.env.approved(call) == answer
    modifies service.site, service.site.store, service.site.executions, service.runtime, task
    ensures service.site.Valid() && service.runtime.Valid() && old(service.site.trace) <= service.site.trace
    ensures answer == Err(PersistenceUncertain) ==>
              service.Own() == old(service.Own()) && reply == Err(PersistenceUncertain)
  {
    ghost var saved, own, met, v := service.runtime.saved, service.Own(), 0, NO_VISIT;
    reply, met, v := service.ContinueRunning(task, AtTool(approval, checkpointId), o, w);
    if answer == Err(PersistenceUncertain) {
      VisitRaises(saved, service.runtime.saved, task.id, approval, checkpointId, call, service.runtime.maxSteps, o, v,
                  PersistenceUncertain);
      assert service.Own()[|own|..] == [];
    }
  }

  /** The tool was called inside a continuation; its outcome is written to the ledger, and the continuation goes on from
      what the ledger said. When a database fault kept the result from being stored, the ledger says that persistence is
      uncertain, and the continuation takes no further step: in particular it does not record the Task as FAILED. */
  method ResultWrite(executor: X.ApprovedToolExecutionService, service: TaskExecutionService, claim: L.ToolExecution,
                     task: Task, approval: ApprovalId, checkpointId: nat, c: X.Conditions, o: Outside, w: Weather)
    returns (told: E.Reply, reply: Result<TaskRow>)
    requires executor.site == service.site && executor.me == service.me && service.site.Valid()
    requires service.runtime.Valid() && o.authorized
    requires executor.Phase() == E.Called(claim, c.outcome) && X.ClaimFor(claim, approval, task.id, claim.Call())
    requires service.Hold() == B.Captured(task.Row()) && task.status == RUNNING
    requires AtTheCall(service.runtime.saved, task.id, approval, checkpointId, claim.Call())
    modifies service.site, service.site.store, service.site.executions, service.runtime, task
    ensures service.site.Valid() && service.runtime.Valid() && old(service.site.trace) <= service.site.trace
    ensures told == E.Raised(PersistenceUncertain) ==>
              reply == Err(PersistenceUncertain) &&
              service.Own() == old(service.Own()) + [D.OnLedger(E.Finish(service.me, c.finishNow, c.finishFault))]
    ensures c.outcome.Content? && c.finishFault.BodyError? ==> told == E.Raised(PersistenceUncertain)
    ensures c.outcome.Content? && !c.finishFault.Fine? && O.Holds(old(service.site.executions.rows), claim) ==>
              told == E.Raised(PersistenceUncertain)
  {
    told := WriteResult(executor, service, claim, task.id, approval, c);
    var answer := if told.Returned? then Ok(told.content) else Err(told.error);
    var env := o.env.(approved := (x: ToolCall) => answer);
    reply := GoOnFrom(service, task, approval, checkpointId, claim.Call(), answer, o.(env := env), w);
  }
}
