/** The runtime as the services invoke it, and what its stored workflows then show (backend/app/agents/runtime.py). */
module Invocations {
  import opened Values
  import A = ApprovalModel
  import G = AgentGraph
  import GR = GraphRuns
  import R = AgentRuntime
  import M = ModelCalls

  /** How the runtime is invoked: by run(), resume() or resume_pending_tool(). */
  datatype Entry =
    | Fresh(messages: seq<G.Message>)
    | AtPause(approval: ApprovalId)
    | AtTool(approval: ApprovalId, checkpointId: nat)

  /** What an invocation meets: model and tools, whether validate() lets it pass, and when a request is stamped. */
  datatype Outside = Outside(env: R.Environment, authorized: bool, created: Time)

  /** How an invocation ends for the service that made it: an answer, a request for approval, or an exception. */
  datatype Invoked = Finished(content: string) | Asked(approval: A.ApprovalRow) | Raised(error: Error)

  /** The request that the runtime raises, as the Approval that is to be stored. */
  function Request(p: G.Pending, created: Time): A.ApprovalRow {
    A.ApprovalRow(p.id, p.taskId, p.call.id, p.call.name, p.call.arguments, A.PENDING, created, None)
  }

  /** Once approved, the stored request authorizes exactly the call that was asked for. */
  lemma RequestIsForTheCall(p: G.Pending, created: Time, now: Time, approvals: A.Approvals, task: TaskId,
                            call: ToolCall)
    requires created <= now
    ensures var row := Request(p, created);
            && row.WellFormed() && row.status == A.PENDING && row.createdAt == created
            && A.Decided(row, A.APPROVED, now).Ok?
            && (A.Authorizes(approvals[p.id := A.Decided(row, A.APPROVED, now).value], p.id, task, call)
                <==> task == p.taskId && call == p.call)
  {
  }

  function AsEnded(said: R.RuntimeReply, created: Time): Invoked {
    match said
    case Answer(content) => Finished(content)
    case Asks(p) => Asked(Request(p, created))
    case Failed(e) => Raised(e)
    case LimitReached => Raised(ValueError)
  }

  /** One call of the runtime: what it said, the stamp of a request, and the invocation if it was let in. */
  datatype Visit = Visit(said: R.RuntimeReply, created: Time, joined: Option<M.Invocation>) {
    function Ending(): Invoked {
      AsEnded(said, created)
    }
  }

  const NO_VISIT := Visit(R.Failed(ResumeAuthorization), 0, None)

  /** The workflow of the Task ended with this answer. */
  ghost predicate EndedWith(saved: R.Saver, task: TaskId, content: string) {
    R.Stored(saved, task) && R.Latest(saved, task).next.End? && R.Latest(saved, task).state.finalAnswer == Some(content)
  }

  /** What the caller is told is what the stored workflow shows: its answer at its end, or its request at its pause. */
  ghost predicate ShownBy(saved: R.Saver, task: TaskId, reply: R.RuntimeReply) {
    match reply
    case Answer(content) => EndedWith(saved, task, content)
    case Asks(p) =>
      R.Stored(saved, task) && R.Latest(saved, task).next.ApprovalPause?
      && R.Latest(saved, task).state.pending == Some(p)
    case Failed(_) => true
    case LimitReached => false
  }

  /** An invocation that was let in: a fresh one only for a Task without a workflow, any other one only at its pause or at its
      tool node. */
  ghost predicate Joins(before: R.Saver, after: R.Saver, task: TaskId, entry: Entry, maxSteps: nat, i: M.Invocation) {
    && (entry.Fresh? <==> task !in before)
    && (task in before ==> R.Stored(before, task))
    && var from := if entry.Fresh? then G.Initial(task, entry.messages, maxSteps) else R.Latest(before, task);
       && M.Admitted(entry.Fresh?, from, i.command)
       && R.Invoked(from, i.env, i.command, i.limit, i.cp, i.reply, i.nodes, i.turns)
       && R.Stored(after, task) && R.Latest(after, task) == i.cp
  }

  /** The life of a stored workflow: the invocations that led from its first checkpoint to its latest one. */
  ghost predicate LifeOf(saved: R.Saver, task: TaskId, start: G.Checkpoint, life: seq<M.Invocation>) {
    if task in saved then
      R.Stored(saved, task) && life != [] && M.Lived(start, life) && M.Reached(start, life) == R.Latest(saved, task)
    else life == []
  }

  /** Whatever the runtime is asked, every stored workflow has a life, so that its budget bounds all its calls of the
      model. */
  lemma {:induction false} LifeGoesOn(before: R.Saver, after: R.Saver, task: TaskId, entry: Entry, maxSteps: nat,
                                      i: M.Invocation,
                                      start: G.Checkpoint, life: seq<M.Invocation>)
    requires LifeOf(before, task, start, life) && Joins(before, after, task, entry, maxSteps, i)
    requires entry.Fresh? ==> start == G.Initial(task, entry.messages, maxSteps)
    ensures LifeOf(after, task, start, life + [i])
  {
    assert (life + [i])[..|life|] == life;
  }

  /** What the reply of an invocation says about its last checkpoint. */
  lemma ReplyIsShown(from: G.Checkpoint, env: R.Environment, command: Option<(TaskId, ApprovalId)>, limit: nat,
                     saved: R.Saver, task: TaskId,
                     reply: R.RuntimeReply, nodes: nat, turns: seq<GR.Turn>)
    requires R.Stored(saved, task) && R.Invoked(from, env, command, limit, R.Latest(saved, task), reply, nodes, turns)
    requires !reply.LimitReached?
    ensures ShownBy(saved, task, reply)
  {
  }

  /** Does the runtime let this in? */
  predicate LetsIn(saved: R.Saver, task: TaskId, entry: Entry, authorized: bool) {
    match entry
    case Fresh(_) => task !in saved
    case AtPause(approval) => R.PausedFor(saved, task, approval) && authorized
    case AtTool(approval, checkpointId) => R.StoppedAtTool(saved, task, approval, checkpointId) && authorized
  }

  /** What a call of the runtime does to the store: it is let in exactly when it may be, is otherwise refused and changes
      nothing, and says what the stored workflow shows. */
  ghost predicate Visited(before: R.Saver, after: R.Saver, task: TaskId, entry: Entry, maxSteps: nat, o: Outside,
                          v: Visit) {
    && R.ElsewhereKept(before, after, task) && ShownBy(after, task, v.said) && v.created == o.created
    && (v.joined.Some? <==> LetsIn(before, task, entry, o.authorized))
    && match v.joined
       case None => v.said == R.Failed(ResumeAuthorization) && after == before
       case Some(i) => i.reply == v.said && i.env == o.env && Joins(before, after, task, entry, maxSteps, i)
  }

  /** Ask the runtime to run, to resume at the pause, or to go on at the tool node. */
  method Invoke(runtime: R.AgentRuntime, task: TaskId, entry: Entry, o: Outside)
    returns (ending: Invoked, ghost v: Visit)
    requires runtime.Valid()
    modifies runtime
    ensures runtime.Valid() && ending == v.Ending()
    ensures Visited(old(runtime.saved), runtime.saved, task, entry, runtime.maxSteps, o, v)
  {
    var said; ghost var joined;
    match entry {
      case Fresh(messages) => said, joined := Run(runtime, task, messages, o.env);
      case AtPause(approval) => said, joined := Resume(runtime, task, approval, o.env, o.authorized);
      case AtTool(approval, checkpointId) =>
        said, joined := ResumePendingTool(runtime, task, approval, checkpointId, o.env, o.authorized);
    }
    ending := AsEnded(said, o.created);
    v := Visit(said, o.created, joined);
  }

  method Run(runtime: R.AgentRuntime, task: TaskId, messages: seq<G.Message>, env: R.Environment)
    returns (reply: R.RuntimeReply, ghost joined: Option<M.Invocation>)
    requires runtime.Valid()
    modifies runtime
    ensures runtime.Valid() && R.ElsewhereKept(old(runtime.saved), runtime.saved, task)
    ensures ShownBy(runtime.saved, task, reply)
    ensures joined.Some? <==> task !in old(runtime.saved)
    ensures match joined
            case None => reply == R.Failed(ResumeAuthorization) && runtime.saved == old(runtime.saved)
            case Some(i) => i.reply == reply && i.env == env && Joins(old(runtime.saved), runtime.saved, task,
                                                                      Fresh(messages), runtime.maxSteps, i)
  {
    ghost var before := runtime.saved;
    var nodes; ghost var turns;
    reply, nodes, turns := runtime.Run(task, messages, env);
    joined := None;
    if task !in before {
      var from, limit := G.Initial(task, messages, runtime.maxSteps), 2 * runtime.maxSteps + 4;
      joined := Some(M.Invocation(env, None, limit, R.Latest(runtime.saved, task), reply, nodes, turns));
      ReplyIsShown(from, env, None, limit, runtime.saved, task, reply, nodes, turns);
    }
  }

  method Resume(runtime: R.AgentRuntime, task: TaskId, approval: ApprovalId, env: R.Environment, authorized: bool)
    returns (reply: R.RuntimeReply, ghost joined: Option<M.Invocation>)
    requires runtime.Valid()
    modifies runtime
    ensures runtime.Valid() && R.ElsewhereKept(old(runtime.saved), runtime.saved, task)
    ensures ShownBy(runtime.saved, task, reply)
    ensures joined.Some? <==> R.PausedFor(old(runtime.saved), task, approval) && authorized
    ensures match joined
            case None => reply == R.Failed(ResumeAuthorization) && runtime.saved == old(runtime.saved)
            case Some(i) => i.reply == reply && i.env == env && Joins(old(runtime.saved), runtime.saved, task,
                                                                      AtPause(approval), runtime.maxSteps, i)
  {
    ghost var before := runtime.saved;
    var nodes; ghost var turns;
    reply, nodes, turns := runtime.Resume(task, approval, env, authorized);
    joined := None;
    if R.PausedFor(before, task, approval) && authorized {
      ghost var from, command := R.Latest(before, task), Some((task, approval));
      ghost var limit := 2 * from.state.maxSteps + 4;
      joined := Some(M.Invocation(env, command, limit, R.Latest(runtime.saved, task), reply, nodes, turns));
      ReplyIsShown(from, env, command, limit, runtime.saved, task, reply, nodes, turns);
    }
  }

  method ResumePendingTool(runtime: R.AgentRuntime, task: TaskId, approval: ApprovalId, checkpointId: nat,
                           env: R.Environment, authorized: bool)
    returns (reply: R.RuntimeReply, ghost joined: Option<M.Invocation>)
    requires runtime.Valid()
    modifies runtime
    ensures runtime.Valid() && R.ElsewhereKept(old(runtime.saved), runtime.saved, task)
    ensures ShownBy(runtime.saved, task, reply)
    ensures joined.Some? <==> R.StoppedAtTool(old(runtime.saved), task, approval, checkpointId) && authorized
    ensures match joined
            case None => reply == R.Failed(ResumeAuthorization) && runtime.saved == old(runtime.saved)
            case Some(i) =>
              i.reply == reply && i.env == env
              && Joins(old(runtime.saved), runtime.saved, task, AtTool(approval, checkpointId), runtime.maxSteps, i)
  {
    ghost var before := runtime.saved;
    var nodes; ghost var turns;
    reply, nodes, turns := runtime.ResumePendingTool(task, approval, checkpointId, env, authorized);
    joined := None;
    if R.StoppedAtTool(before, task, approval, checkpointId) && authorized {
      ghost var from := R.Latest(before, task);
      ghost var limit := 2 * from.state.maxSteps + 4;
      joined := Some(M.Invocation(env, None, limit, R.Latest(runtime.saved, task), reply, nodes, turns));
      ReplyIsShown(from, env, None, limit, runtime.saved, task, reply, nodes, turns);
    }
  }
}
