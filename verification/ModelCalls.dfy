/** Every call of the model over the whole life of a workflow, those that fail included
    (backend/app/workflows/agent.py, backend/app/agents/runtime.py). */
module ModelCalls {
  import opened Values
  import opened AgentGraph
  import opened GraphRuns
  import opened AgentRuntime

  /** One invocation of the runtime that was let in, and where it ended. */
  datatype Invocation = Invocation(env: Environment, command: Option<(TaskId, ApprovalId)>, limit: nat,
                                   cp: Checkpoint, reply: RuntimeReply, nodes: nat, turns: seq<Turn>)

  /** The checkpoint that a life has reached. */
  function Reached(start: Checkpoint, life: seq<Invocation>): Checkpoint {
    if life == [] then start else Last(life).cp
  }

  /** After the first invocation the runtime lets in a resume at the pause and a retry of the tool node, nothing
      else. */
  predicate Admitted(first: bool, cp: Checkpoint, command: Option<(TaskId, ApprovalId)>) {
    if first || cp.next.Tool? then command.None? else cp.next.ApprovalPause? && command.Some?
  }

  /** Any number of invocations, each from the checkpoint at which the one before it ended. */
  ghost predicate Lived(start: Checkpoint, life: seq<Invocation>) {
    life != [] ==>
      var before, i := life[..|life| - 1], Last(life);
      && Lived(start, before)
      && Admitted(before == [], Reached(start, before), i.command)
      && Invoked(Reached(start, before), i.env, i.command, i.limit, i.cp, i.reply, i.nodes, i.turns)
  }

  /** The node at which the invocation ended called the model: it is the model's, it was executed, and it was within
      budget. */
  predicate CalledInVain(i: Invocation) {
    i.cp.next.Llm? && |i.turns| < i.nodes && i.cp.state.stepCount < i.cp.state.maxSteps
  }

  /** All calls of the model in a life. */
  function AllCalls(start: Checkpoint, life: seq<Invocation>): nat {
    if life == [] then 0
    else
      var before, i := life[..|life| - 1], Last(life);
      AllCalls(start, before) + LlmCalls(Reached(start, before), i.turns) + (if CalledInVain(i) then 1 else 0)
  }

  /** Completed calls are counted in the checkpoint, from whichever checkpoint one starts. */
  lemma {:induction false} StepsCounted(base: seq<Message>, start: Checkpoint, turns: seq<Turn>)
    requires Sound(base, start)
    ensures Sound(base, Progress(start, turns)) && Progress(start, turns).state.maxSteps == start.state.maxSteps
    ensures Progress(start, turns).state.stepCount == start.state.stepCount + LlmCalls(start, turns)
  {
    if turns != [] {
      var before := Progress(start, turns[..|turns| - 1]);
      StepsCounted(base, start, turns[..|turns| - 1]);
      AdvanceKeeps(base, before, Last(turns));
      if before.next.Tool? && Last(turns).Work? {
        ToolKeeps(base, Last(turns).tools, Last(turns).approved, Last(turns).newId, before.state);
      }
    }
  }

  /** A call that came to nothing is the last one, because nothing is let in at the model's node. */
  lemma {:induction false} CallsCounted(base: seq<Message>, start: Checkpoint, life: seq<Invocation>)
    requires Sound(base, start) && Lived(start, life)
    ensures var cp := Reached(start, life);
            && Sound(base, cp) && cp.state.maxSteps == start.state.maxSteps
            && start.state.stepCount + AllCalls(start, life) <= cp.state.stepCount
            + (if life != [] && CalledInVain(Last(life)) then 1 else 0)
  {
    if life != [] {
      var before, i := life[..|life| - 1], Last(life);
      CallsCounted(base, start, before);
      StepsCounted(base, Reached(start, before), i.turns);
    }
  }

  /** The persisted budget bounds all calls of the model, completed or not, over any number of invocations. */
  lemma {:induction false} BudgetBoundsAllCalls(task: TaskId, messages: seq<Message>, maxSteps: nat,
                                                life: seq<Invocation>)
    requires Lived(Initial(task, messages, maxSteps), life)
    ensures AllCalls(Initial(task, messages, maxSteps), life) <= maxSteps
  {
    InitialOk(task, messages, maxSteps);
    CallsCounted(messages, Initial(task, messages, maxSteps), life);
  }
}
