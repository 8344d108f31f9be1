/** The agent graph: llm, tool and approval_pause nodes over one checkpointed state
    (backend/app/workflows/agent.py, backend/app/protected_execution.py). */
module AgentGraph {
  import opened Values
  import TM = TaskModel

  datatype Message =
    | System(content: string)
    | User(content: string)
    | Assistant(text: Option<string>, calls: seq<ToolCall>)
    | ToolResult(callId: string, content: string)

  /** The approval request carried by the checkpoint until it is executed. */
  datatype Pending = Pending(id: ApprovalId, taskId: TaskId, call: ToolCall)

  datatype GraphState = GraphState(
    taskId: TaskId,
    messages: seq<Message>,
    stepCount: nat,
    maxSteps: nat,
    finalAnswer: Option<string>,
    toolCalls: seq<ToolCall>,
    cursor: nat,
    pending: Option<Pending>,
    resumeId: Option<ApprovalId>)

  datatype Node = Llm | Tool | ApprovalPause | End

  /** The state after each completed node, and the node to run next. */
  datatype Checkpoint = Checkpoint(state: GraphState, next: Node)

  datatype LlmReply = Said(content: Option<string>, calls: seq<ToolCall>) | LlmFailed(error: Error)

  /** What protected_execution does with a call: run it, ask for an approval, or raise. */
  datatype Protected = Ran(content: string) | NeedsApproval | Raises(error: Error)

  datatype NodeResult =
    | Completed(state: GraphState)
    | Raised(error: Error)
    | Interrupted
    | Signalled(request: Pending)   // ApprovalRequired escapes when nothing can be checkpointed

  /** The registered tools: which are free of side effects, and what those answer. */
  datatype Toolbox = Toolbox(permitted: ToolCall -> bool, registered: string -> bool, sideEffectFree: string -> bool,
                             answer: ToolCall -> Result<string>)

  function ProtectedExecute(tools: Toolbox, call: ToolCall): Protected {
    if !tools.permitted(call) then Raises(PermissionDenied)
    else if !tools.registered(call.name) then Raises(ToolNotFound)
    else if tools.sideEffectFree(call.name) then
      match tools.answer(call)
      case Ok(content) => Ran(content)
      case Err(e) => Raises(e)
    else NeedsApproval
  }

  function Initial(task: TaskId, messages: seq<Message>, maxSteps: nat): Checkpoint {
    Checkpoint(GraphState(task, messages, 0, maxSteps, None, [], 0, None, None), Llm)
  }

  function LlmNode(llm: seq<Message> -> LlmReply, s: GraphState): NodeResult {
    if s.stepCount >= s.maxSteps then Raised(MaxStepsExceeded)
    else
      match llm(s.messages)
      case LlmFailed(e) => Raised(e)
      case Said(content, calls) =>
        if calls == [] then
          if content.None? || TM.Blank(content.value) then Raised(InvalidResponse)
          else Completed(s.(stepCount := s.stepCount + 1, finalAnswer := content))
        else Completed(s.(stepCount := s.stepCount + 1, messages := s.messages + [Assistant(content, calls)],
                          toolCalls := calls, cursor := 0, pending := None, resumeId := None))
  }

  datatype Walked = Stopped(messages: seq<Message>, cursor: nat, asked: bool) | Broke(error: Error)

  /** Run calls from the cursor until one needs an approval, one raises, or none is left. */
  function Walk(tools: Toolbox, calls: seq<ToolCall>, cursor: nat, messages: seq<Message>): Walked
    decreases |calls| - cursor
  {
    if cursor >= |calls| then Stopped(messages, cursor, false)
    else
      match ProtectedExecute(tools, calls[cursor])
      case Ran(content) => Walk(tools, calls, cursor + 1, messages + [ToolResult(calls[cursor].id, content)])
      case NeedsApproval => Stopped(messages, cursor, true)
      case Raises(e) => Broke(e)
  }

  function AfterWalk(s: GraphState, w: Walked, newId: ApprovalId, durable: bool): NodeResult {
    match w
    case Broke(e) => Raised(e)
    case Stopped(messages, cursor, asked) =>
      if !asked then Completed(s.(messages := messages, cursor := cursor, pending := None, resumeId := None))
      else if cursor < |s.toolCalls| then
        var request := Pending(newId, s.taskId, s.toolCalls[cursor]);
        if durable then Completed(s.(messages := messages, cursor := cursor, pending := Some(request),
                                     resumeId := None))
        else Signalled(request)
      else Raised(ValueError)
  }

  /** An approved call at the cursor is executed first; the rest of the round follows. */
  function ToolNode(tools: Toolbox, approved: ToolCall -> Result<string>, newId: ApprovalId, durable: bool,
                    s: GraphState): NodeResult {
    if s.cursor < |s.toolCalls| && s.pending.Some? then
      var call := s.toolCalls[s.cursor];
      if s.resumeId != Some(s.pending.value.id) then Raised(ResumeAuthorization)
      else
        match approved(call)
        case Err(e) => Raised(e)
        case Ok(content) =>
          AfterWalk(s, Walk(tools, s.toolCalls, s.cursor + 1, s.messages + [ToolResult(call.id, content)]), newId,
                    durable)
    else AfterWalk(s, Walk(tools, s.toolCalls, s.cursor, s.messages), newId, durable)
  }

  /** The pause node interrupts until it is resumed with its own correlation. */
  function PauseNode(s: GraphState, resumed: Option<(TaskId, ApprovalId)>): NodeResult {
    if s.pending.None? then Raised(ValueError)
    else if resumed.None? then Interrupted
    else if resumed.value != (s.taskId, s.pending.value.id) then Raised(ResumeAuthorization)
    else Completed(s.(resumeId := Some(s.pending.value.id)))
  }

  function AfterLlm(s: GraphState): Node {
    if s.finalAnswer.Some? then End else Tool
  }

  function AfterTool(s: GraphState): Node {
    if s.pending.Some? then ApprovalPause else Llm
  }

  /** The tool node as it is written: one loop over cursor, pending request and messages. */
  method RunToolNode(tools: Toolbox, approved: ToolCall -> Result<string>, newId: ApprovalId, durable: bool,
                     s: GraphState)
    returns (r: NodeResult)
    ensures r == ToolNode(tools, approved, newId, durable, s)
  {
    var messages, cursor, pending := s.messages, s.cursor, s.pending;
    while cursor < |s.toolCalls|
      invariant pending.Some? ==> pending == s.pending && cursor == s.cursor && messages == s.messages
      invariant pending.None? ==>
                  ToolNode(tools, approved, newId, durable, s) ==
                    AfterWalk(s, Walk(tools, s.toolCalls, cursor, messages), newId, durable)
      decreases |s.toolCalls| - cursor
    {
      var call := s.toolCalls[cursor];
      var content: string;
      if pending.Some? {
        if s.resumeId != Some(pending.value.id) {
          return Raised(ResumeAuthorization);
        }
        var result := approved(call);
        if result.Err? {
          return Raised(result.error);
        }
        content := result.value;
        pending := None;
      } else {
        var result := ProtectedExecute(tools, call);
        match result {
          case Raises(e) => return Raised(e);
          case NeedsApproval =>
            var request := Pending(newId, s.taskId, call);
            if !durable {
              return Signalled(request);
            }
            return Completed(s.(messages := messages, cursor := cursor, pending := Some(request), resumeId := None));
          case Ran(text) => content := text;
        }
      }
      messages := messages + [ToolResult(call.id, content)];
      cursor := cursor + 1;
    }
    r := Completed(s.(messages := messages, cursor := cursor, pending := None, resumeId := None));
  }
}
