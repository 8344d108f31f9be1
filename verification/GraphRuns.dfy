/** Runs of the agent graph across pauses: message pairing, step budget and termination. */
module GraphRuns {
  import opened Values
  import opened AgentGraph
  import TM = TaskModel

  /** Everything the outside contributes to one node. */
  datatype Turn =
    | Ask(llm: seq<Message> -> LlmReply)
    | Work(tools: Toolbox, approved: ToolCall -> Result<string>, newId: ApprovalId)
    | Permit(task: TaskId, approval: ApprovalId)

  /** The next checkpoint, when the node of the present one completes. */
  function Advance(cp: Checkpoint, turn: Turn): Option<Checkpoint> {
    match (cp.next, turn)
    case (Llm, Ask(llm)) =>
      (match LlmNode(llm, cp.state) case Completed(s) => Some(Checkpoint(s, AfterLlm(s))) case _ => None)
    case (Tool, Work(tools, approved, newId)) =>
      (match ToolNode(tools, approved, newId, true, cp.state)
       case Completed(s) => Some(Checkpoint(s, AfterTool(s)))
       case _ => None)
    case (ApprovalPause, Permit(task, approval)) =>
      (match PauseNode(cp.state, Some((task, approval))) case Completed(s) => Some(Checkpoint(s, Tool)) case _ => None)
    case _ => None
  }

  /** A run of completed nodes; a node that does not complete leaves the checkpoint for a retry. */
  function Progress(cp: Checkpoint, turns: seq<Turn>): Checkpoint {
    if turns == [] then cp
    else
      var before := Progress(cp, turns[..|turns| - 1]);
      match Advance(before, Last(turns)) case Some(after) => after case None => before
  }

  /* ---- the shape of a checkpoint ---- */

  /** The calls still to be answered after these messages, or None when a message does not fit. */
  function Owed(messages: seq<Message>): Option<seq<ToolCall>> {
    if messages == [] then Some([])
    else
      match (Owed(messages[..|messages| - 1]), Last(messages))
      case (Some(owed), Assistant(_, calls)) => if owed == [] && calls != [] then Some(calls) else None
      case (Some(owed), ToolResult(id, _)) => if owed != [] && owed[0].id == id then Some(owed[1..]) else None
      case _ => None
  }

  ghost predicate StateOk(base: seq<Message>, s: GraphState) {
    && base <= s.messages
    && s.stepCount <= s.maxSteps
    && s.cursor <= |s.toolCalls|
    && Owed(s.messages[|base|..]) == Some(s.toolCalls[s.cursor..])
    && (s.pending.Some? ==>
          && s.cursor < |s.toolCalls|
          && s.pending.value.call == s.toolCalls[s.cursor]
          && s.pending.value.taskId == s.taskId)
  }

  ghost predicate Sound(base: seq<Message>, cp: Checkpoint) {
    var s := cp.state;
    && StateOk(base, s)
    && (s.finalAnswer.Some? <==> cp.next.End?)
    && (s.finalAnswer.Some? ==> !TM.Blank(s.finalAnswer.value))
    && (cp.next.Llm? || cp.next.End? ==> s.cursor == |s.toolCalls| && s.pending.None?)
    && (!cp.next.Llm? ==> 1 <= s.stepCount)
    && (cp.next.ApprovalPause? ==> s.pending.Some? && s.resumeId.None?)
    && (cp.next.Tool? && s.pending.Some? ==> s.resumeId == Some(s.pending.value.id))
  }

  lemma {:induction false} InitialOk(task: TaskId, messages: seq<Message>, maxSteps: nat)
    ensures Sound(messages, Initial(task, messages, maxSteps))
  {
    var s := Initial(task, messages, maxSteps).state;
    assert messages[|messages|..] == [] && s.toolCalls[0..] == [];
  }

  /** One more message, one step of the pairing automaton. */
  lemma {:induction false} OwedAppend(messages: seq<Message>, base: nat, m: Message)
    requires base <= |messages|
    ensures Owed((messages + [m])[base..]) ==
              (match (Owed(messages[base..]), m)
               case (Some(owed), Assistant(_, calls)) => if owed == [] && calls != [] then Some(calls) else None
               case (Some(owed), ToolResult(id, _)) => if owed != [] && owed[0].id == id then Some(owed[1..]) else None
               case _ => None)
  {
    assert (messages + [m])[base..] == messages[base..] + [m];
    assert (messages[base..] + [m])[..|messages[base..]|] == messages[base..];
  }

  /** Walking on from a cursor answers calls in order. */
  lemma {:induction false} WalkKeeps(base: seq<Message>, tools: Toolbox, calls: seq<ToolCall>, cursor: nat,
                                     messages: seq<Message>)
    requires cursor <= |calls| && base <= messages
    requires Owed(messages[|base|..]) == Some(calls[cursor..])
    ensures var w := Walk(tools, calls, cursor, messages);
            w.Stopped? ==>
              && cursor <= w.cursor <= |calls| && base <= w.messages
              && (w.asked <==> w.cursor < |calls|)
              && Owed(w.messages[|base|..]) == Some(calls[w.cursor..])
    decreases |calls| - cursor
  {
    if cursor < |calls| {
      match ProtectedExecute(tools, calls[cursor])
      case Ran(content) =>
        assert calls[cursor..][1..] == calls[cursor + 1..];
        OwedAppend(messages, |base|, ToolResult(calls[cursor].id, content));
        WalkKeeps(base, tools, calls, cursor + 1, messages + [ToolResult(calls[cursor].id, content)]);
      case _ =>
    }
  }

  /** The cursor of a completed tool node, and what was done to get there. */
  lemma {:induction false} ToolKeeps(base: seq<Message>, tools: Toolbox, approved: ToolCall -> Result<string>,
                                     newId: ApprovalId, s: GraphState)
    requires StateOk(base, s)
    ensures var r := ToolNode(tools, approved, newId, true, s);
            r.Completed? ==>
              && StateOk(base, r.state) && r.state.resumeId.None?
              && (r.state.pending.None? ==> r.state.cursor == |s.toolCalls|)
              && r.state == s.(messages := r.state.messages, cursor := r.state.cursor, pending := r.state.pending,
                               resumeId := None)
              && s.cursor <= r.state.cursor && (s.pending.Some? ==> s.cursor < r.state.cursor)
  {
    if s.cursor < |s.toolCalls| && s.pending.Some? {
      var call := s.toolCalls[s.cursor];
      if s.resumeId == Some(s.pending.value.id) && approved(call).Ok? {
        var m := ToolResult(call.id, approved(call).value);
        assert s.toolCalls[s.cursor..][1..] == s.toolCalls[s.cursor + 1..];
        OwedAppend(s.messages, |base|, m);
        WalkKeeps(base, tools, s.toolCalls, s.cursor + 1, s.messages + [m]);
      }
    } else {
      WalkKeeps(base, tools, s.toolCalls, s.cursor, s.messages);
    }
  }

  /** This call was run without an approval, and lawfully so: permitted, registered and free of side effects. */
  predicate RanFreely(tools: Toolbox, call: ToolCall, answer: Message) {
    && tools.permitted(call) && tools.registered(call.name) && tools.sideEffectFree(call.name)
    && tools.answer(call).Ok? && answer == ToolResult(call.id, tools.answer(call).value)
  }

  /** A walk runs only such calls and stops only before one that is permitted and registered but needs an approval; otherwise
      it breaks at the first call that may not be run or fails. */
  lemma {:induction false} WalkRunsFreely(tools: Toolbox, calls: seq<ToolCall>, cursor: nat, messages: seq<Message>)
    requires cursor <= |calls|
    ensures match Walk(tools, calls, cursor, messages)
            case Stopped(after, stop, asked) =>
              && cursor <= stop <= |calls| && |after| == |messages| + (stop - cursor) && messages <= after
              && (forall k | cursor <= k < stop :: RanFreely(tools, calls[k], after[|messages| + (k - cursor)]))
              && (asked <==> stop < |calls|)
              && (asked ==> tools.permitted(calls[stop]) && tools.registered(calls[stop].name)
                            && !tools.sideEffectFree(calls[stop].name))
            case Broke(e) =>
              exists k | cursor <= k < |calls| :: FailsAt(tools, calls[k], e)
    decreases |calls| - cursor
  {
    if cursor < |calls| {
      match ProtectedExecute(tools, calls[cursor])
      case Ran(content) =>
        var more := messages + [ToolResult(calls[cursor].id, content)];
        WalkRunsFreely(tools, calls, cursor + 1, more);
        var w := Walk(tools, calls, cursor + 1, more);
        if w.Stopped? {
          forall k | cursor <= k < w.cursor
            ensures RanFreely(tools, calls[k], w.messages[|messages| + (k - cursor)])
          {
            assert k == cursor ==> w.messages[|messages|] == more[|messages|];
            assert k > cursor ==> RanFreely(tools, calls[k], w.messages[|more| + (k - (cursor + 1))]);
          }
        }
      case Raises(e) => assert FailsAt(tools, calls[cursor], e);
      case NeedsApproval =>
    }
  }

  /** Why a call that needs no approval is not run to its end. */
  predicate FailsAt(tools: Toolbox, call: ToolCall, e: Error) {
    if !tools.permitted(call) then e == PermissionDenied
    else if !tools.registered(call.name) then e == ToolNotFound
    else tools.sideEffectFree(call.name) && tools.answer(call) == Err(e)
  }

  /** A completed tool node: after the approved call, if there was one, every call up to the new cursor was run
      freely. */
  lemma {:induction false} ToolNodeRunsFreely(tools: Toolbox, approved: ToolCall -> Result<string>, newId: ApprovalId,
                                              s: GraphState)
    requires s.cursor <= |s.toolCalls| && ToolNode(tools, approved, newId, true, s).Completed?
    ensures var r := ToolNode(tools, approved, newId, true, s).state;
            var first := if s.pending.Some? && s.cursor < |s.toolCalls| then s.cursor + 1 else s.cursor;
            && first <= r.cursor <= |s.toolCalls| && |r.messages| == |s.messages| + (r.cursor - s.cursor)
            && (forall k | first <= k < r.cursor :: RanFreely(tools, s.toolCalls[k],
                                                              r.messages[|s.messages| + (k - s.cursor)]))
            && (first == s.cursor + 1 ==>
                  && s.resumeId == Some(s.pending.value.id) && approved(s.toolCalls[s.cursor]).Ok?
                  && r.messages[|s.messages|] ==
                       ToolResult(s.toolCalls[s.cursor].id, approved(s.toolCalls[s.cursor]).value))
            && (r.pending.Some? ==>
                  && r.cursor < |s.toolCalls| && r.pending.value == Pending(newId, s.taskId, s.toolCalls[r.cursor])
                  && tools.permitted(s.toolCalls[r.cursor]) && tools.registered(s.toolCalls[r.cursor].name)
                  && !tools.sideEffectFree(s.toolCalls[r.cursor].name))
  {
    if s.cursor < |s.toolCalls| && s.pending.Some? {
      var call := s.toolCalls[s.cursor];
      WalkRunsFreely(tools, s.toolCalls, s.cursor + 1, s.messages + [ToolResult(call.id, approved(call).value)]);
    } else {
      WalkRunsFreely(tools, s.toolCalls, s.cursor, s.messages);
    }
  }

  /** A model node that does not complete: the budget is used up and the model was not asked, or the model failed, or its
      last word was blank. */
  lemma ModelNodeRaises(llm: seq<Message> -> LlmReply, s: GraphState)
    ensures match LlmNode(llm, s)
            case Completed(r) =>
              && s.stepCount < s.maxSteps && r.stepCount == s.stepCount + 1 && llm(s.messages).Said?
              && (r.finalAnswer != s.finalAnswer ==> llm(s.messages) == Said(r.finalAnswer, []) && r.finalAnswer.Some?
                                                     && !TM.Blank(r.finalAnswer.value))
            case Raised(e) =>
              || (s.maxSteps <= s.stepCount && e == MaxStepsExceeded)
              || (s.stepCount < s.maxSteps && llm(s.messages) == LlmFailed(e))
              || (s.stepCount < s.maxSteps && llm(s.messages).Said? && llm(s.messages).calls == [] && e == InvalidResponse
                  && (llm(s.messages).content.None? || TM.Blank(llm(s.messages).content.value)))
            case _ => false
  {
  }

  lemma {:induction false} LlmKeeps(base: seq<Message>, llm: seq<Message> -> LlmReply, cp: Checkpoint)
    requires Sound(base, cp) && cp.next.Llm?
    ensures var r := LlmNode(llm, cp.state); r.Completed? ==> Sound(base, Checkpoint(r.state, AfterLlm(r.state)))
  {
    match llm(cp.state.messages)
    case Said(content, calls) =>
      if calls != [] && cp.state.stepCount < cp.state.maxSteps {
        OwedAppend(cp.state.messages, |base|, Assistant(content, calls));
        assert cp.state.toolCalls[cp.state.cursor..] == [];
        assert calls[0..] == calls;
      }
    case LlmFailed(_) =>
  }

  /** Every completed node keeps the shape, whatever the model, the tools and the operators do. */
  lemma {:induction false} AdvanceKeeps(base: seq<Message>, cp: Checkpoint, turn: Turn)
    requires Sound(base, cp)
    ensures Advance(cp, turn).Some? ==>
              && Sound(base, Advance(cp, turn).value)
              && Advance(cp, turn).value.state.taskId == cp.state.taskId
              && Advance(cp, turn).value.state.maxSteps == cp.state.maxSteps
  {
    match (cp.next, turn)
    case (Llm, Ask(llm)) => LlmKeeps(base, llm, cp);
    case (Tool, Work(tools, approved, newId)) => ToolKeeps(base, tools, approved, newId, cp.state);
    case _ =>
  }

  lemma {:induction false} ProgressKeeps(base: seq<Message>, cp: Checkpoint, turns: seq<Turn>)
    requires Sound(base, cp)
    ensures Sound(base, Progress(cp, turns))
    ensures Progress(cp, turns).state.maxSteps == cp.state.maxSteps
    ensures Progress(cp, turns).state.taskId == cp.state.taskId
  {
    if turns != [] {
      ProgressKeeps(base, cp, turns[..|turns| - 1]);
      AdvanceKeeps(base, Progress(cp, turns[..|turns| - 1]), Last(turns));
    }
  }

  /** Whatever pauses came before, the model is called, and the run ends, on a fully paired history. */
  lemma {:induction false} WellPaired(task: TaskId, messages: seq<Message>, maxSteps: nat, turns: seq<Turn>)
    ensures var cp := Progress(Initial(task, messages, maxSteps), turns);
            && messages <= cp.state.messages
            && (cp.next.Llm? || cp.next.End? ==> Owed(cp.state.messages[|messages|..]) == Some([]))
  {
    InitialOk(task, messages, maxSteps);
    ProgressKeeps(messages, Initial(task, messages, maxSteps), turns);
    var s := Progress(Initial(task, messages, maxSteps), turns).state;
    assert s.cursor == |s.toolCalls| ==> s.toolCalls[s.cursor..] == [];
  }

  /** The k-th message after the assistant message answers its k-th call. */
  ghost predicate Answers(messages: seq<Message>, i: nat, k: nat) {
    && i + 1 + k < |messages| && messages[i].Assistant? && k < |messages[i].calls|
    && messages[i + 1 + k].ToolResult? && messages[i + 1 + k].callId == messages[i].calls[k].id
  }

  /** What a paired history is: every round is one assistant message with calls,
      answered by one tool message per call, in call order, with the same ids. */
  lemma {:induction false} PairedMeaning(messages: seq<Message>, i: nat)
    requires Owed(messages).Some? && i < |messages|
    ensures messages[i].Assistant? || messages[i].ToolResult?
    ensures messages[i].Assistant? ==>
              var calls := messages[i].calls;
              var answered := Min(|calls|, |messages| - i - 1);
              && calls != []
              && (forall k | 0 <= k < answered :: Answers(messages, i, k))
              && (i + 1 + |calls| < |messages| ==> messages[i + 1 + |calls|].Assistant?)
              && (|messages| <= i + 1 + |calls| ==> Owed(messages) == Some(calls[answered..]))
  {
    var init := messages[..|messages| - 1];
    if i < |messages| - 1 {
      PairedMeaning(init, i);
      if messages[i].Assistant? {
        var calls := messages[i].calls;
        var k := |messages| - i - 2;
        assert init[i] == messages[i];
        forall j: nat | j < Min(|calls|, k) ensures Answers(messages, i, j) { assert Answers(init, i, j); }
        if k < |calls| {
          assert Owed(init) == Some(calls[k..]) && calls[k..][1..] == calls[k + 1..];
        } else if k == |calls| {
          assert Owed(init) == Some(calls[|calls|..]) && calls[|calls|..] == [];
        } else {
          assert messages[i + 1 + |calls|] == init[i + 1 + |calls|];
        }
      }
    } else if messages[i].Assistant? {
      assert Owed(init).Some?;
      assert messages[i].calls[0..] == messages[i].calls;
    }
  }

  function Min(a: int, b: int): int {
    if a < b then a else b
  }

  /* ---- budget and termination ---- */

  /** Completed calls of the model. */
  function LlmCalls(cp: Checkpoint, turns: seq<Turn>): nat {
    if turns == [] then 0
    else
      var before := Progress(cp, turns[..|turns| - 1]);
      LlmCalls(cp, turns[..|turns| - 1]) + (if before.next.Llm? && Advance(before, Last(turns)).Some? then 1 else 0)
  }

  /** The persisted budget bounds the completed model calls of the whole run, however often it is resumed. */
  lemma {:induction false} BudgetAcrossPauses(task: TaskId, messages: seq<Message>, maxSteps: nat, turns: seq<Turn>)
    ensures var start := Initial(task, messages, maxSteps);
            LlmCalls(start, turns) == Progress(start, turns).state.stepCount <= maxSteps
  {
    var start := Initial(task, messages, maxSteps);
    InitialOk(task, messages, maxSteps);
    ProgressKeeps(messages, start, turns);
    if turns != [] {
      BudgetAcrossPauses(task, messages, maxSteps, turns[..|turns| - 1]);
      var before := Progress(start, turns[..|turns| - 1]);
      ProgressKeeps(messages, start, turns[..|turns| - 1]);
      if before.next.Tool? && Last(turns).Work? {
        ToolKeeps(messages, Last(turns).tools, Last(turns).approved, Last(turns).newId, before.state);
      }
    }
  }

  function Phase(cp: Checkpoint): nat {
    match cp.next
    case Llm => 0
    case End => 0
    case Tool => if cp.state.pending.Some? then 1 else 3
    case ApprovalPause => 2
  }

  /** Remaining steps, then calls left in the round, then the phase of the call at the cursor. */
  ghost predicate Descends(after: Checkpoint, before: Checkpoint) {
    var x, y := after.state, before.state;
    var dx, dy := x.maxSteps - x.stepCount, y.maxSteps - y.stepCount;
    var rx, ry := |x.toolCalls| - x.cursor, |y.toolCalls| - y.cursor;
    dx < dy || (dx == dy && (rx < ry || (rx == ry && Phase(after) < Phase(before))))
  }

  /** Every completed node descends in a well-founded order, across any number of pauses. */
  lemma {:induction false} NodesDescend(base: seq<Message>, cp: Checkpoint, turn: Turn)
    requires Sound(base, cp) && Advance(cp, turn).Some?
    ensures Descends(Advance(cp, turn).value, cp)
    ensures var s := Advance(cp, turn).value.state; 0 <= s.maxSteps - s.stepCount && 0 <= |s.toolCalls| - s.cursor
  {
    AdvanceKeeps(base, cp, turn);
    match (cp.next, turn)
    case (Tool, Work(tools, approved, newId)) => ToolKeeps(base, tools, approved, newId, cp.state);
    case _ =>
  }
}
