/** One invocation of the graph over the stored checkpoints (backend/app/agents/runtime.py). */
module AgentRuntime {
  import opened Values
  import opened AgentGraph
  import opened GraphRuns

  datatype Environment = Environment(
    llm: seq<Message> -> LlmReply, tools: Toolbox, approved: ToolCall -> Result<string>, freshId: nat -> ApprovalId)

  datatype RuntimeReply = Answer(content: string) | Asks(request: Pending) | Failed(error: Error) | LimitReached

  /** What recovery sees of a workflow: its latest checkpoint and the identity under which that is stored. */
  datatype Evidence = NoEvidence | Evidence(checkpointId: nat, checkpoint: Checkpoint)

  /* ---- the nodes that an invocation executes ---- */

  /** The resume command reaches the first node only. */
  function CommandAt(command: Option<(TaskId, ApprovalId)>, k: nat): Option<(TaskId, ApprovalId)> {
    if k == 0 then command else None
  }

  function NodeOutcome(cp: Checkpoint, env: Environment, command: Option<(TaskId, ApprovalId)>,
                       newId: ApprovalId): NodeResult
    requires !cp.next.End?
  {
    match cp.next
    case Llm => LlmNode(env.llm, cp.state)
    case Tool => ToolNode(env.tools, env.approved, newId, true, cp.state)
    case ApprovalPause => PauseNode(cp.state, command)
  }

  function NodeTurn(cp: Checkpoint, env: Environment, command: Option<(TaskId, ApprovalId)>, newId: ApprovalId): Turn
    requires !cp.next.End?
  {
    match cp.next
    case Llm => Ask(env.llm)
    case Tool => Work(env.tools, env.approved, newId)
    case ApprovalPause => if command.Some? then Permit(command.value.0, command.value.1) else Permit(0, 0)
  }

  /** The edges of the graph. */
  function Route(cp: Checkpoint, s: GraphState): Checkpoint {
    Checkpoint(s, if cp.next.Llm? then AfterLlm(s) else if cp.next.Tool? then AfterTool(s) else Tool)
  }

  /** The nodes that completed from a start, each with what this environment gave it. */
  ghost predicate Executed(start: Checkpoint, env: Environment, command: Option<(TaskId, ApprovalId)>,
                           turns: seq<Turn>) {
    turns != [] ==>
      var k := |turns| - 1;
      var cp := Progress(start, turns[..k]);
      && Executed(start, env, command, turns[..k])
      && !cp.next.End?
      && NodeOutcome(cp, env, CommandAt(command, k), env.freshId(k + 1)).Completed?
      && turns[k] == NodeTurn(cp, env, CommandAt(command, k), env.freshId(k + 1))
  }

  /** The node at this checkpoint was executed and did not complete; this is what the caller is told. */
  predicate Halts(cp: Checkpoint, env: Environment, command: Option<(TaskId, ApprovalId)>, newId: ApprovalId,
                  reply: RuntimeReply) {
    !cp.next.End? &&
    match NodeOutcome(cp, env, command, newId)
    case Raised(e) => reply == Failed(e)
    case Interrupted => cp.state.pending.Some? && reply == Asks(cp.state.pending.value)
    case Signalled(_) => reply == Failed(ValueError)
    case Completed(_) => false
  }

  /** Why an invocation ended at this checkpoint after n completed nodes, and how many nodes it executed. */
  predicate Ended(cp: Checkpoint, env: Environment, command: Option<(TaskId, ApprovalId)>, limit: nat, n: nat,
                  reply: RuntimeReply, nodes: nat) {
    match reply
    case Answer(content) => cp.next.End? && cp.state.finalAnswer == Some(content) && nodes == n
    case LimitReached => !cp.next.End? && limit <= n && nodes == n
    case _ => Halts(cp, env, CommandAt(command, n), env.freshId(nodes), reply) && nodes == n + 1 <= limit
  }

  /** A whole invocation: how it went on from a start, how many nodes it executed, and why it ended where it did. */
  ghost predicate Invoked(start: Checkpoint, env: Environment, command: Option<(TaskId, ApprovalId)>, limit: nat,
                          cp: Checkpoint, reply: RuntimeReply, nodes: nat, turns: seq<Turn>)
  {
    Executed(start, env, command, turns) && cp == Progress(start, turns)
    && Ended(cp, env, command, limit, |turns|, reply, nodes)
  }

  lemma CompletedAdvances(cp: Checkpoint, env: Environment, command: Option<(TaskId, ApprovalId)>, newId: ApprovalId)
    requires !cp.next.End?
    ensures var outcome := NodeOutcome(cp, env, command, newId);
            && (outcome.Completed? ==>
                  Advance(cp, NodeTurn(cp, env, command, newId)) == Some(Route(cp, outcome.state))
                  && (cp.next.ApprovalPause? ==> command.Some?))
            && (outcome.Interrupted? ==> cp.next.ApprovalPause? && cp.state.pending.Some?)
  {
  }

  /** Only a pause interrupts, and it has a request. */
  lemma InterruptAsks(cp: Checkpoint, env: Environment, command: Option<(TaskId, ApprovalId)>, newId: ApprovalId)
    requires !cp.next.End? && NodeOutcome(cp, env, command, newId).Interrupted?
    ensures cp.state.pending.Some?
  {
  }

  /** One more completed node. */
  lemma {:induction false} ExecutedAppend(start: Checkpoint, env: Environment, command: Option<(TaskId, ApprovalId)>,
                                          turns: seq<Turn>)
    requires Executed(start, env, command, turns) && !Progress(start, turns).next.End?
    requires NodeOutcome(Progress(start, turns), env, CommandAt(command, |turns|), env.freshId(|turns| + 1)).Completed?
    ensures var cp, c, id := Progress(start, turns), CommandAt(command, |turns|), env.freshId(|turns| + 1);
            var more := turns + [NodeTurn(cp, env, c, id)];
            Executed(start, env, command, more) && Progress(start, more) == Route(cp, NodeOutcome(cp, env, c, id).state)
  {
    var cp, c, id := Progress(start, turns), CommandAt(command, |turns|), env.freshId(|turns| + 1);
    assert (turns + [NodeTurn(cp, env, c, id)])[..|turns|] == turns;
    CompletedAdvances(cp, env, c, id);
  }

  lemma {:induction false} FirstNodeCompletes(start: Checkpoint, env: Environment,
                                              command: Option<(TaskId, ApprovalId)>, turns: seq<Turn>)
    requires Executed(start, env, command, turns) && turns != []
    ensures !start.next.End? && NodeOutcome(start, env, command, env.freshId(1)).Completed?
  {
    if |turns| == 1 {
      assert turns[..0] == [];
    } else {
      FirstNodeCompletes(start, env, command, turns[..|turns| - 1]);
    }
  }

  /** An invocation whose first node raises ends there with that error. */
  lemma {:induction false} FirstNodeRaises(start: Checkpoint, env: Environment, command: Option<(TaskId, ApprovalId)>,
                                           limit: nat, cp: Checkpoint, reply: RuntimeReply, nodes: nat,
                                           turns: seq<Turn>, error: Error)
    requires Invoked(start, env, command, limit, cp, reply, nodes, turns) && !reply.LimitReached? && !start.next.End?
    requires NodeOutcome(start, env, command, env.freshId(1)) == Raised(error)
    ensures turns == [] && cp == start && reply == Failed(error)
  {
    if turns != [] {
      FirstNodeCompletes(start, env, command, turns);
    }
  }

  /* ---- the recursion limit ---- */

  /** Nodes that an invocation can still execute from here. */
  function NodesLeft(cp: Checkpoint, resumed: bool): int {
    var r := cp.state.maxSteps - cp.state.stepCount;
    match cp.next
    case End => 0
    case Llm => 2 * r + 1
    case Tool => 2 * r + 2
    case ApprovalPause => if resumed then 2 * r + 3 else 1
  }

  /** A completed node uses up one of the nodes left, or more. */
  lemma {:induction false} NodeSpends(base: seq<Message>, cp: Checkpoint, turn: Turn)
    requires Sound(base, cp) && Advance(cp, turn).Some?
    ensures 1 + NodesLeft(Advance(cp, turn).value, false) <= NodesLeft(cp, true)
    ensures !cp.next.ApprovalPause? ==> 1 + NodesLeft(Advance(cp, turn).value, false) <= NodesLeft(cp, false)
  {
    AdvanceKeeps(base, cp, turn);
    match (cp.next, turn)
    case (Tool, Work(tools, approved, newId)) => ToolKeeps(base, tools, approved, newId, cp.state);
    case _ =>
  }

  /** Completed nodes and the nodes left never exceed what the start allowed. */
  lemma {:induction false} ExecutionIsBounded(base: seq<Message>, start: Checkpoint, env: Environment,
                                              command: Option<(TaskId, ApprovalId)>, turns: seq<Turn>)
    requires Sound(base, start) && Executed(start, env, command, turns)
    ensures Sound(base, Progress(start, turns))
    ensures |turns| + NodesLeft(Progress(start, turns), CommandAt(command, |turns|).Some?) <= NodesLeft(start, command.Some?)
  {
    if turns != [] {
      var k := |turns| - 1;
      var cp := Progress(start, turns[..k]);
      ExecutionIsBounded(base, start, env, command, turns[..k]);
      CompletedAdvances(cp, env, CommandAt(command, k), env.freshId(k + 1));
      AdvanceKeeps(base, cp, turns[k]);
      NodeSpends(base, cp, turns[k]);
    }
  }

  /** Before the end there is room for one more node. */
  lemma {:induction false} RoomForOne(base: seq<Message>, start: Checkpoint, env: Environment,
                                      command: Option<(TaskId, ApprovalId)>, turns: seq<Turn>)
    requires Sound(base, start) && Executed(start, env, command, turns) && !Progress(start, turns).next.End?
    ensures |turns| + 1 <= NodesLeft(start, command.Some?)
  {
    ExecutionIsBounded(base, start, env, command, turns);
  }

  /** Fresh, resumed at the pause or resumed at the tool: an invocation executes at most 2 * max_steps + 1 nodes,
      so the configured recursion limit is never what ends it. */
  lemma {:induction false} LimitSuffices(base: seq<Message>, start: Checkpoint, env: Environment,
                                         command: Option<(TaskId, ApprovalId)>,
                      cp: Checkpoint, reply: RuntimeReply, nodes: nat, turns: seq<Turn>)
    requires Sound(base, start) && Invoked(start, env, command, 2 * start.state.maxSteps + 4, cp, reply, nodes, turns)
    ensures nodes <= 2 * start.state.maxSteps + 1 && !reply.LimitReached?
  {
    ExecutionIsBounded(base, start, env, command, turns);
  }

  /* ---- the runtime ---- */

  /** The checkpoints of each workflow, oldest first; a checkpoint's identity is its place in this order. */
  type Saver = map<TaskId, seq<Checkpoint>>

  predicate Stored(saved: Saver, task: TaskId) {
    task in saved && saved[task] != []
  }

  function Latest(saved: Saver, task: TaskId): Checkpoint
    requires Stored(saved, task)
  {
    Last(saved[task])
  }

  /** Checkpoints of this Task may be added; the workflows of all other Tasks are as they were. */
  ghost predicate OthersKept(before: Saver, after: Saver, task: TaskId) {
    && after.Keys == before.Keys && task in before && before[task] <= after[task]
    && (forall t | t in before && t != task :: after[t] == before[t])
  }

  /** A workflow of this Task may be added; what belongs to other Tasks is as it was. */
  ghost predicate ElsewhereKept<V>(before: map<TaskId, V>, after: map<TaskId, V>, task: TaskId) {
    forall t | t != task :: (t in after <==> t in before) && (t in before ==> after[t] == before[t])
  }

  lemma StillElsewhereKept(before: Saver, begun: Saver, after: Saver, task: TaskId)
    requires ElsewhereKept(before, begun, task) && OthersKept(begun, after, task)
    ensures ElsewhereKept(before, after, task)
  {
  }

  /** Every workflow has a checkpoint, and its latest one is of its own Task and in the shape that all have. */
  ghost predicate WellStored(saved: Saver, given: map<TaskId, seq<Message>>) {
    && saved.Keys == given.Keys
    && (forall t | t in saved :: Stored(saved, t) && Sound(given[t], Latest(saved, t)) && Latest(saved, t).state.taskId == t)
  }

  /** Checkpoints that an execution added keep the store in order. */
  lemma {:induction false} ExecutionStores(before: Saver, after: Saver, given: map<TaskId, seq<Message>>, task: TaskId,
                                           env: Environment, command: Option<(TaskId, ApprovalId)>, turns: seq<Turn>)
    requires WellStored(before, given) && OthersKept(before, after, task) && Stored(after, task)
    requires Executed(Latest(before, task), env, command, turns)
    requires Latest(after, task) == Progress(Latest(before, task), turns)
    ensures WellStored(after, given)
  {
    ExecutionIsBounded(given[task], Latest(before, task), env, command, turns);
    ProgressKeeps(given[task], Latest(before, task), turns);
  }

  /** A pause of this Task for this approval is the latest checkpoint. */
  predicate PausedFor(saved: Saver, task: TaskId, approval: ApprovalId) {
    && Stored(saved, task)
    && var cp := Latest(saved, task);
       cp.next.ApprovalPause? && cp.state.pending.Some? && cp.state.pending.value.id == approval
  }

  /** The tool node under this approval has not completed since the identified checkpoint was stored. */
  predicate StoppedAtTool(saved: Saver, task: TaskId, approval: ApprovalId, checkpointId: nat) {
    && Stored(saved, task) && |saved[task]| == checkpointId
    && var cp := Latest(saved, task);
       cp.next.Tool? && cp.state.pending.Some? && cp.state.pending.value.id == approval
  }

  class AgentRuntime {
    const maxSteps: nat
    var saved: Saver
    ghost var given: map<TaskId, seq<Message>>   // the messages each workflow was started with

    ghost predicate Valid()
      reads this
    {
      WellStored(saved, given)
    }

    constructor (limit: nat)
      requires 1 <= limit
      ensures Valid() && maxSteps == limit && saved == map[]
    {
      maxSteps, saved, given := limit, map[], map[];
    }

    /** Run the node that a checkpoint names. */
    method ExecuteNode(cp: Checkpoint, env: Environment, command: Option<(TaskId, ApprovalId)>, newId: ApprovalId)
      returns (result: NodeResult)
      requires !cp.next.End?
      ensures result == NodeOutcome(cp, env, command, newId)
    {
      match cp.next {
        case Llm => result := LlmNode(env.llm, cp.state);
        case Tool => result := RunToolNode(env.tools, env.approved, newId, true, cp.state);
        case ApprovalPause => result := PauseNode(cp.state, command);
      }
    }

    /** The next node, and the checkpoint after it if it completes; otherwise what the caller is told. */
    method RunNode(cp: Checkpoint, env: Environment, command: Option<(TaskId, ApprovalId)>, newId: ApprovalId)
      returns (stopped: Option<RuntimeReply>, after: Checkpoint)
      requires !cp.next.End?
      ensures var outcome := NodeOutcome(cp, env, command, newId);
              if outcome.Completed? then stopped.None? && after == Route(cp, outcome.state)
              else stopped.Some? && Halts(cp, env, command, newId, stopped.value)
                   && (stopped.value.Failed? || stopped.value.Asks?)
    {
      var result := ExecuteNode(cp, env, command, newId);
      stopped, after := None, cp;
      match result {
        case Raised(e) => stopped := Some(Failed(e));
        case Interrupted =>
          InterruptAsks(cp, env, command, newId);
          stopped := Some(Asks(cp.state.pending.value));
        case Signalled(_) => stopped := Some(Failed(ValueError));
        case Completed(s) => after := Route(cp, s);
      }
    }

    /** Execute nodes, storing a checkpoint after each, until the graph ends, pauses, raises or meets the limit. */
    method Drive(task: TaskId, env: Environment, resumed: Option<(TaskId, ApprovalId)>, limit: nat)
      returns (reply: RuntimeReply, nodes: nat, ghost turns: seq<Turn>)
      requires Valid() && task in saved
      modifies this`saved
      ensures Valid() && OthersKept(old(saved), saved, task) && |saved[task]| == |old(saved)[task]| + |turns|
      ensures Invoked(Latest(old(saved), task), env, resumed, limit, Latest(saved, task), reply, nodes, turns)
    {
      reply, nodes, turns := Loop(task, env, resumed, limit);
      ExecutionStores(old(saved), saved, given, task, env, resumed, turns);
    }

    method Loop(task: TaskId, env: Environment, resumed: Option<(TaskId, ApprovalId)>, limit: nat)
      returns (reply: RuntimeReply, nodes: nat, ghost turns: seq<Turn>)
      requires Stored(saved, task) && (exists base :: Sound(base, Latest(saved, task)))
      modifies this`saved
      ensures OthersKept(old(saved), saved, task) && |saved[task]| == |old(saved)[task]| + |turns|
      ensures Stored(saved, task)
      ensures Invoked(Latest(old(saved), task), env, resumed, limit, Latest(saved, task), reply, nodes, turns)
    {
      var cp := Latest(saved, task);
      ghost var start := cp;
      ghost var base :| Sound(base, start);
      nodes, turns := 0, [];
      while !cp.next.End?
        invariant OthersKept(old(saved), saved, task) && Stored(saved, task) && Latest(saved, task) == cp
        invariant nodes == |turns| && |saved[task]| == |old(saved)[task]| + nodes
        invariant Executed(start, env, resumed, turns) && cp == Progress(start, turns)
        decreases NodesLeft(start, resumed.Some?) - nodes
      {
        if nodes >= limit {
          return LimitReached, nodes, turns;
        }
        RoomForOne(base, start, env, resumed, turns);
        var command := if nodes == 0 then resumed else None;
        nodes := nodes + 1;
        var stopped, after := RunNode(cp, env, command, env.freshId(nodes));
        if stopped.Some? {
          return stopped.value, nodes, turns;
        }
        ExecutedAppend(start, env, resumed, turns);
        turns := turns + [NodeTurn(cp, env, command, env.freshId(nodes))];
        saved := saved[task := saved[task] + [after]];
        cp := after;
      }
      ExecutionIsBounded(base, start, env, resumed, turns);
      reply := Answer(cp.state.finalAnswer.value);
    }

    /** The first checkpoint of a workflow. */
    method Begin(task: TaskId, messages: seq<Message>)
      requires Valid() && task !in saved
      modifies this
      ensures Valid() && task in saved && saved[task] == [Initial(task, messages, maxSteps)]
      ensures ElsewhereKept(old(saved), saved, task) && ElsewhereKept(old(given), given, task)
    {
      InitialOk(task, messages, maxSteps);
      saved := saved[task := [Initial(task, messages, maxSteps)]];
      given := given[task := messages];
    }

    /** A fresh workflow; a Task has at most one. */
    method Run(task: TaskId, messages: seq<Message>, env: Environment)
      returns (reply: RuntimeReply, nodes: nat, ghost turns: seq<Turn>)
      requires Valid()
      modifies this
      ensures Valid() && !reply.LimitReached? && nodes <= 2 * maxSteps + 1
      ensures ElsewhereKept(old(saved), saved, task) && ElsewhereKept(old(given), given, task)
      ensures if task in old(saved) then reply == Failed(ResumeAuthorization) && saved == old(saved) && nodes == 0
              else task in saved && |saved[task]| == 1 + |turns|
                   && Invoked(Initial(task, messages, maxSteps), env, None, 2 * maxSteps + 4, Latest(saved, task),
                              reply, nodes, turns)
    {
      if task in saved {
        return Failed(ResumeAuthorization), 0, [];
      }
      Begin(task, messages);
      ghost var begun := saved;
      reply, nodes, turns := Drive(task, env, None, 2 * maxSteps + 4);
      StillElsewhereKept(old(saved), begun, saved, task);
      LimitSuffices(messages, Initial(task, messages, maxSteps), env, None, Latest(saved, task), reply, nodes, turns);
    }

    /** Continue a stored pause; the budget is the stored one, not that of this runtime. */
    method Resume(task: TaskId, approval: ApprovalId, env: Environment, authorized: bool)
      returns (reply: RuntimeReply, nodes: nat, ghost turns: seq<Turn>)
      requires Valid()
      modifies this`saved
      ensures Valid() && !reply.LimitReached?
      ensures if PausedFor(old(saved), task, approval) && authorized
              then OthersKept(old(saved), saved, task) && |saved[task]| == |old(saved)[task]| + |turns|
                   && 1 <= nodes <= 2 * Latest(old(saved), task).state.maxSteps + 1
                   && Invoked(Latest(old(saved), task), env, Some((task, approval)),
                              2 * Latest(old(saved), task).state.maxSteps + 4,
                              Latest(saved, task), reply, nodes, turns)
              else reply == Failed(ResumeAuthorization) && saved == old(saved) && nodes == 0
      ensures reply != Failed(ResumeAuthorization) || saved != old(saved) ==>
                && authorized && task in old(saved) && |old(saved)[task]| > 0
                && var cp := Last(old(saved)[task]);
                   && cp.next == ApprovalPause && cp.state.taskId == task && cp.state.cursor < |cp.state.toolCalls|
                   && cp.state.pending == Some(Pending(approval, task, cp.state.toolCalls[cp.state.cursor]))
    {
      if task !in saved {
        return Failed(ResumeAuthorization), 0, [];
      }
      var snapshot := Latest(saved, task);
      var pending := snapshot.state.pending;
      if !snapshot.next.ApprovalPause? || pending.None? || pending.value.id != approval || pending.value.taskId != task
         || snapshot.state.taskId != task {
        return Failed(ResumeAuthorization), 0, [];
      }
      if !authorized {
        return Failed(ResumeAuthorization), 0, [];
      }
      reply, nodes, turns := Drive(task, env, Some((task, approval)), 2 * snapshot.state.maxSteps + 4);
      LimitSuffices(given[task], snapshot, env, Some((task, approval)), Latest(saved, task), reply, nodes, turns);
    }

    /** Continue a checkpoint that stopped before the approved tool node completed. */
    method ResumePendingTool(task: TaskId, approval: ApprovalId, checkpointId: nat, env: Environment, authorized: bool)
      returns (reply: RuntimeReply, nodes: nat, ghost turns: seq<Turn>)
      requires Valid()
      modifies this`saved
      ensures Valid() && !reply.LimitReached?
      ensures if StoppedAtTool(old(saved), task, approval, checkpointId) && authorized
              then OthersKept(old(saved), saved, task) && |saved[task]| == |old(saved)[task]| + |turns|
                   && 1 <= nodes <= 2 * Latest(old(saved), task).state.maxSteps + 1
                   && Invoked(Latest(old(saved), task), env, None, 2 * Latest(old(saved), task).state.maxSteps + 4,
                              Latest(saved, task), reply, nodes, turns)
              else reply == Failed(ResumeAuthorization) && saved == old(saved) && nodes == 0
      ensures reply != Failed(ResumeAuthorization) || saved != old(saved) ==>
                && authorized && task in old(saved) && |old(saved)[task]| == checkpointId > 0
                && var cp := Last(old(saved)[task]);
                   && cp.next == Tool && cp.state.taskId == task && cp.state.resumeId == Some(approval)
                   && cp.state.cursor < |cp.state.toolCalls|
                   && cp.state.pending == Some(Pending(approval, task, cp.state.toolCalls[cp.state.cursor]))
    {
      if task !in saved {
        return Failed(ResumeAuthorization), 0, [];
      }
      var snapshot := Latest(saved, task);
      var pending := snapshot.state.pending;
      if |saved[task]| != checkpointId || !snapshot.next.Tool? || pending.None? || pending.value.id != approval
         || pending.value.taskId != task || snapshot.state.taskId != task || snapshot.state.resumeId != Some(approval) {
        return Failed(ResumeAuthorization), 0, [];
      }
      if !authorized {
        return Failed(ResumeAuthorization), 0, [];
      }
      reply, nodes, turns := Drive(task, env, None, 2 * snapshot.state.maxSteps + 4);
      LimitSuffices(given[task], snapshot, env, None, Latest(saved, task), reply, nodes, turns);
    }

    /** Evidence of a workflow of exactly this Task, in the shape that every node keeps; the identity is that of the
        only checkpoint from which the pending tool may be resumed. */
    method WorkflowEvidence(task: TaskId) returns (evidence: Evidence)
      requires Valid()
      ensures evidence.NoEvidence? <==> task !in saved
      ensures evidence.Evidence? ==>
                && Sound(given[task], evidence.checkpoint) && evidence.checkpoint.state.taskId == task
                && evidence.checkpointId == |saved[task]| && evidence.checkpoint == Latest(saved, task)
                && (forall approval, id :: StoppedAtTool(saved, task, approval, id) ==> id == evidence.checkpointId)
    {
      if task in saved {
        evidence := Evidence(|saved[task]|, Latest(saved, task));
      } else {
        evidence := NoEvidence;
      }
    }
  }
}
