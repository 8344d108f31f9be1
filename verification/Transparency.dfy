/** Pauses, approvals, crashes and recoveries do not change what a run says: a run that reaches its
    end has the messages and the answer of the straight-through run without any pause. */
module Transparency {
  import opened Values
  import opened AgentGraph
  import opened GraphRuns
  import opened DurableRun
  import TM = TaskModel
  import A = ApprovalModel
  import L = LedgerModel
  import E = ExecutionProtocol
  import LI = LedgerInvariant
  import D = Deployment

  datatype Outcome = Finished(messages: seq<Message>, answer: string) | Stuck

  /** What each protected call answers when it is simply run. */
  type Oracle = ToolCall -> string

  /** A whole round without pauses: every call runs at once, in order. */
  function Round(tools: Toolbox, oracle: Oracle, calls: seq<ToolCall>, cursor: nat,
                 messages: seq<Message>): Option<seq<Message>>
    decreases |calls| - cursor
  {
    if cursor >= |calls| then Some(messages)
    else
      var call := calls[cursor];
      match ProtectedExecute(tools, call)
      case Ran(content) => Round(tools, oracle, calls, cursor + 1, messages + [ToolResult(call.id, content)])
      case NeedsApproval => Round(tools, oracle, calls, cursor + 1, messages + [ToolResult(call.id, oracle(call))])
      case Raises(_) => None
  }

  /** The straight-through run: ask, run the round, ask again, until an answer or the end of the budget. */
  function Straight(g: Setting, oracle: Oracle, messages: seq<Message>, steps: nat): Outcome
    decreases steps
  {
    if steps == 0 then Stuck
    else
      match g.llm(messages)
      case LlmFailed(_) => Stuck
      case Said(content, calls) =>
        if calls == [] then
          if content.None? || TM.Blank(content.value) then Stuck else Finished(messages, content.value)
        else
          match Round(g.tools, oracle, calls, 0, messages + [Assistant(content, calls)])
          case None => Stuck
          case Some(after) => Straight(g, oracle, after, steps - 1)
  }

  /** Where a checkpoint leads if nothing interferes any more. */
  function Prospect(g: Setting, oracle: Oracle, cp: Checkpoint): Outcome {
    var s := cp.state;
    var steps := if s.stepCount <= s.maxSteps then s.maxSteps - s.stepCount else 0;
    if s.finalAnswer.Some? then Finished(s.messages, s.finalAnswer.value)
    else
      match Round(g.tools, oracle, s.toolCalls, s.cursor, s.messages)
      case None => Stuck
      case Some(after) => Straight(g, oracle, after, steps)
  }

  /** The oracle answers every settled call of the Task as the ledger does. */
  ghost predicate AgreesWith(oracle: Oracle, w: D.World, task: TaskId) {
    forall slot | slot in w.ledger.core.rows && slot.task == task && w.ledger.core.rows[slot].status.SUCCEEDED? ::
      w.ledger.core.rows[slot].result == Some(oracle(w.ledger.core.rows[slot].Call()))
  }

  /** Stopping a round early and going on from there is the same round. */
  lemma {:induction false} WalkThenRound(g: Setting, oracle: Oracle, calls: seq<ToolCall>, cursor: nat,
                                         messages: seq<Message>)
    requires Walk(g.tools, calls, cursor, messages).Stopped?
    ensures var w := Walk(g.tools, calls, cursor, messages);
            Round(g.tools, oracle, calls, cursor, messages) == Round(g.tools, oracle, calls, w.cursor, w.messages)
    decreases |calls| - cursor
  {
    if cursor < |calls| {
      match ProtectedExecute(g.tools, calls[cursor])
      case Ran(content) => WalkThenRound(g, oracle, calls, cursor + 1,
                                         messages + [ToolResult(calls[cursor].id, content)]);
      case _ =>
    }
  }

  /** A call answered from the ledger agrees with an oracle that agrees with a later ledger. */
  lemma AnswerAgrees(oracle: Oracle, modes: E.Modes, w: D.World, final: D.World, task: TaskId, approval: ApprovalId,
                     call: ToolCall)
    requires D.Inv(modes, w) && D.Later(w, final) && AgreesWith(oracle, final, task)
    requires FromLedger(w, task, approval)(call).Ok?
    ensures FromLedger(w, task, approval)(call).value == oracle(call)
  {
    var content := FromLedger(w, task, approval)(call).value;
    LedgerAnswers(modes, w, task, approval, call);
    RecordedSurvives(w, final, task, call, content);
    assert L.Slot(task, call.id) in final.ledger.core.rows;
  }

  /** The tool node stops early or not: what is left of the round is the same. */
  lemma {:induction false} ToolKeepsProspect(g: Setting, oracle: Oracle, base: seq<Message>, cp: Checkpoint,
                                             approved: ToolCall -> Result<string>, newId: ApprovalId)
    requires Sound(base, cp) && cp.next.Tool? && Advance(cp, Work(g.tools, approved, newId)).Some?
    requires var s := cp.state;
             s.cursor < |s.toolCalls| && s.pending.Some? ==>
               approved(s.toolCalls[s.cursor]).Ok?
               && approved(s.toolCalls[s.cursor]).value == oracle(s.toolCalls[s.cursor])
               && ProtectedExecute(g.tools, s.toolCalls[s.cursor]).NeedsApproval?
    ensures Prospect(g, oracle, Advance(cp, Work(g.tools, approved, newId)).value) == Prospect(g, oracle, cp)
  {
    var s := cp.state;
    ToolKeeps(base, g.tools, approved, newId, s);
    if s.cursor < |s.toolCalls| && s.pending.Some? {
      var call := s.toolCalls[s.cursor];
      WalkThenRound(g, oracle, s.toolCalls, s.cursor + 1, s.messages + [ToolResult(call.id, oracle(call))]);
    } else {
      WalkThenRound(g, oracle, s.toolCalls, s.cursor, s.messages);
    }
  }

  /** Completing a node never changes the prospect. */
  lemma {:induction false} NodeKeepsProspect(g: Setting, oracle: Oracle, base: seq<Message>, f: Flow, newId: ApprovalId,
                                             final: D.World)
    requires Inv(g, base, f) && D.Later(f.world, final) && AgreesWith(oracle, final, f.cp.state.taskId)
    ensures Prospect(g, oracle, Act(g, f, Node(newId)).cp) == Prospect(g, oracle, f.cp)
  {
    var s := f.cp.state;
    var turn := TurnAt(g, f, newId);
    if newId !in f.world.business.rows.approvals && MayResume(f) && Advance(f.cp, turn).Some? {
      match f.cp.next
      case Llm =>
      case Tool =>
        if s.cursor < |s.toolCalls| && s.pending.Some? {
          AnswerAgrees(oracle, g.modes, f.world, final, s.taskId, s.pending.value.id, s.toolCalls[s.cursor]);
        }
        ToolKeepsProspect(g, oracle, base, f.cp, turn.approved, newId);
      case _ =>
    }
  }

  lemma {:induction false} FollowKeepsProspect(g: Setting, oracle: Oracle, base: seq<Message>, f: Flow,
                                               moves: seq<Move>, final: D.World)
    requires Inv(g, base, f) && D.Later(Follow(g, f, moves).world, final)
    requires AgreesWith(oracle, final, f.cp.state.taskId)
    ensures Prospect(g, oracle, Follow(g, f, moves).cp) == Prospect(g, oracle, f.cp)
  {
    if moves != [] {
      var before := Follow(g, f, moves[..|moves| - 1]);
      FollowKeeps(g, base, f, moves[..|moves| - 1]);
      ActKeeps(g, base, before, Last(moves));
      D.LaterTransitive(before.world, Follow(g, f, moves).world, final);
      FollowKeepsProspect(g, oracle, base, f, moves[..|moves| - 1], final);
      if Last(moves).Node? {
        NodeKeepsProspect(g, oracle, base, before, Last(moves).newId, final);
      }
    }
  }

  /** What the ledger finally says about each call of the Task. */
  function LedgerOracle(w: D.World, task: TaskId): Oracle {
    (call: ToolCall) =>
      var slot := L.Slot(task, call.id);
      if slot in w.ledger.core.rows && w.ledger.core.rows[slot].result.Some? then w.ledger.core.rows[slot].result.value
      else ""
  }

  /** However often the run was paused, crashed inside the approved step, and was resumed from its last
      checkpoint, its end is that of the straight-through run with the answers that the ledger recorded. */
  lemma {:induction false} PausesAreTransparent(g: Setting, task: TaskId, messages: seq<Message>, maxSteps: nat,
                                                world: D.World, moves: seq<Move>)
    requires D.Inv(g.modes, world)
    requires Follow(g, Begin(task, messages, maxSteps, world), moves).cp.next.End?
    ensures var f := Follow(g, Begin(task, messages, maxSteps, world), moves);
            && f.cp.state.finalAnswer.Some?
            && Straight(g, LedgerOracle(f.world, task), messages, maxSteps) ==
                 Finished(f.cp.state.messages, f.cp.state.finalAnswer.value)
  {
    var start := Begin(task, messages, maxSteps, world);
    var f := Follow(g, start, moves);
    BeginHolds(g, task, messages, maxSteps, world);
    FollowKeeps(g, messages, start, moves);
    forall slot | slot in f.world.ledger.core.rows && slot.task == task && f.world.ledger.core.rows[slot].status.SUCCEEDED?
      ensures f.world.ledger.core.rows[slot].result ==
                Some(LedgerOracle(f.world, task)(f.world.ledger.core.rows[slot].Call()))
    {
      assert LI.CellOk(g.modes, f.world.business.rows.approvals, slot, LI.CellAt(f.world.ledger.core, slot));
    }
    TransparentFor(g, LedgerOracle(f.world, task), task, messages, maxSteps, world, moves);
  }

  /** The same for any function that describes the tools, as long as the ledger recorded its values. */
  lemma {:induction false} TransparentFor(g: Setting, oracle: Oracle, task: TaskId, messages: seq<Message>,
                                          maxSteps: nat, world: D.World, moves: seq<Move>)
    requires D.Inv(g.modes, world)
    requires var f := Follow(g, Begin(task, messages, maxSteps, world), moves);
             f.cp.next.End? && AgreesWith(oracle, f.world, task)
    ensures var f := Follow(g, Begin(task, messages, maxSteps, world), moves);
            && f.cp.state.finalAnswer.Some?
            && Straight(g, oracle, messages, maxSteps) == Finished(f.cp.state.messages, f.cp.state.finalAnswer.value)
  {
    var start := Begin(task, messages, maxSteps, world);
    var f := Follow(g, start, moves);
    BeginHolds(g, task, messages, maxSteps, world);
    FollowKeeps(g, messages, start, moves);
    LI.NoStep(f.world.ledger.core);
    FollowKeepsProspect(g, oracle, messages, start, moves, f.world);
  }

  /* ---- tools that are functions of the call ---- */

  /** Whenever a claimed call is made and answers, it answers what the function says. */
  predicate Answers(oracle: Oracle, s: E.State, act: E.Action) {
    act.Invoke? && act.outcome.Content? && E.PhaseOf(s, act.actor).Holding? ==>
      act.outcome.text == oracle(E.PhaseOf(s, act.actor).row.Call())
  }

  ghost predicate ByFunction(oracle: Oracle, s: E.State) {
    && (forall slot | slot in s.core.rows && s.core.rows[slot].status.SUCCEEDED? ::
          s.core.rows[slot].result == Some(oracle(s.core.rows[slot].Call())))
    && (forall a: ActorId | E.PhaseOf(s, a).Called? && E.PhaseOf(s, a).outcome.Content? ::
          E.PhaseOf(s, a).outcome.text == oracle(E.PhaseOf(s, a).row.Call()))
  }

  /** No row became a success. */
  ghost predicate NoNewSuccess(c: E.Core, d: E.Core) {
    forall slot | slot in d.rows && d.rows[slot].status.SUCCEEDED? :: slot in c.rows && c.rows[slot] == d.rows[slot]
  }

  lemma ClaimDoesNotSucceed(c: E.Core, candidate: L.ToolExecution, fault: Fault)
    ensures NoNewSuccess(c, E.ClaimCore(c, candidate, fault))
  {
    assert E.ClaimCore(c, candidate, fault).rows == L.ClaimedTable(c.rows, candidate, fault);
  }

  lemma ReclaimDoesNotSucceed(c: E.Core, expected: L.ToolExecution, staleBefore: Time, now: Time, fault: Fault)
    ensures NoNewSuccess(c, E.ReclaimCore(c, expected, staleBefore, now, fault))
  {
    assert E.ReclaimCore(c, expected, staleBefore, now, fault).rows == L.ReclaimedTable(c.rows, expected, staleBefore, now, fault);
  }

  lemma {:induction false} OnlyFinishSucceeds(modes: E.Modes, approvals: A.Approvals, s: E.State, act: E.Action)
    requires !act.Finish?
    ensures NoNewSuccess(s.core, E.Next(modes, approvals, s, act).core)
  {
    match (act, E.PhaseOf(s, act.actor)) {
      case (Claim(_, id, created, updated, fault), Missing(req)) =>
        ClaimDoesNotSucceed(s.core, L.Candidate(id, req.task, req.approval, req.call, created, updated), fault);
      case (Reclaim(_, now, fault), Stale(req, expected)) =>
        if req.entry.Recover? { ReclaimDoesNotSucceed(s.core, expected, req.entry.staleBefore, now, fault); }
      case _ =>
    }
  }

  lemma OnlyInvokeCalls(modes: E.Modes, approvals: A.Approvals, s: E.State, act: E.Action, a: ActorId)
    ensures var p := E.PhaseOf(E.Next(modes, approvals, s, act), a);
            p.Called? ==>
              || p == E.PhaseOf(s, a)
              || (a == act.actor && act.Invoke? && E.PhaseOf(s, a) == E.Holding(p.row) && p.outcome == act.outcome)
  {
  }

  lemma FinishSucceeds(oracle: Oracle, c: E.Core, row: L.ToolExecution, outcome: E.Outcome, now: Time, fault: Fault,
                       slot: L.Slot)
    requires outcome.Content? ==> outcome.text == oracle(row.Call())
    requires row.SlotOf() in c.rows && c.rows[row.SlotOf()].SameIdentity(row)
    requires E.Verdict(row, outcome, now).Ok?
    ensures var d := E.FinishCore(c, E.Verdict(row, outcome, now).value, row.updatedAt, fault);
            slot in d.rows && d.rows[slot].status.SUCCEEDED? ==>
              (slot in c.rows && c.rows[slot] == d.rows[slot]) || d.rows[slot].result == Some(oracle(d.rows[slot].Call()))
  {
  }

  lemma ByFunctionStep(oracle: Oracle, modes: E.Modes, approvals: A.Approvals, s: E.State, act: E.Action)
    requires LI.Inv(modes, approvals, s) && ByFunction(oracle, s) && Answers(oracle, s, act)
    ensures ByFunction(oracle, E.Next(modes, approvals, s, act))
  {
    var t := E.Next(modes, approvals, s, act);
    var p := E.PhaseOf(s, act.actor);
    forall a: ActorId | E.PhaseOf(t, a).Called? && E.PhaseOf(t, a).outcome.Content?
      ensures E.PhaseOf(t, a).outcome.text == oracle(E.PhaseOf(t, a).row.Call())
    {
      OnlyInvokeCalls(modes, approvals, s, act, a);
    }
    if act.Finish? && p.Called? {
      assert LI.PhaseOk(modes, approvals, s.core, p);
      FinishByFunction(oracle, modes, s, act.actor, p.row, p.outcome, act.now, act.fault);
    } else if !act.Finish? {
      OnlyFinishSucceeds(modes, approvals, s, act);
    }
  }

  lemma FinishByFunction(oracle: Oracle, modes: E.Modes, s: E.State, a: ActorId, row: L.ToolExecution,
                         outcome: E.Outcome, now: Time, fault: Fault)
    requires ByFunction(oracle, s) && (outcome.Content? ==> outcome.text == oracle(row.Call()))
    requires LI.Backed(LI.CellAt(s.core, row.SlotOf()), row)
    ensures var t := E.AfterFinish(s, a, row, outcome, now, fault);
            forall slot | slot in t.core.rows && t.core.rows[slot].status.SUCCEEDED? ::
              t.core.rows[slot].result == Some(oracle(t.core.rows[slot].Call()))
  {
    var t := E.AfterFinish(s, a, row, outcome, now, fault);
    forall slot | slot in t.core.rows && t.core.rows[slot].status.SUCCEEDED?
      ensures t.core.rows[slot].result == Some(oracle(t.core.rows[slot].Call()))
    {
      if E.Verdict(row, outcome, now).Ok? { FinishSucceeds(oracle, s.core, row, outcome, now, fault, slot); }
    }
  }

  predicate FaithfulMoves(oracle: Oracle, g: Setting, f: Flow, moves: seq<Move>) {
    moves != [] ==>
      var before := Follow(g, f, moves[..|moves| - 1]);
      && FaithfulMoves(oracle, g, f, moves[..|moves| - 1])
      && (Last(moves).Elsewhere? && Last(moves).step.OnLedger? ==> Answers(oracle, before.world.ledger,
                                                                           Last(moves).step.ledger))
  }

  lemma {:induction false} FollowByFunction(oracle: Oracle, g: Setting, base: seq<Message>, f: Flow, moves: seq<Move>)
    requires Inv(g, base, f) && ByFunction(oracle, f.world.ledger) && FaithfulMoves(oracle, g, f, moves)
    ensures ByFunction(oracle, Follow(g, f, moves).world.ledger)
  {
    if moves != [] {
      var before := Follow(g, f, moves[..|moves| - 1]);
      FollowByFunction(oracle, g, base, f, moves[..|moves| - 1]);
      FollowKeeps(g, base, f, moves[..|moves| - 1]);
      if Last(moves).Elsewhere? && Last(moves).step.OnLedger? {
        ByFunctionStep(oracle, g.modes, before.world.business.rows.approvals, before.world.ledger,
                       Last(moves).step.ledger);
      }
    }
  }

  /** For any model and any tool function: the paused, crashed and recovered run ends as the straight one. */
  lemma {:induction false} TransparentForFunctions(g: Setting, tool: Oracle, task: TaskId, messages: seq<Message>,
                                                   maxSteps: nat, moves: seq<Move>)
    requires var start := Begin(task, messages, maxSteps, D.INITIAL);
             FaithfulMoves(tool, g, start, moves) && Follow(g, start, moves).cp.next.End?
    ensures var f := Follow(g, Begin(task, messages, maxSteps, D.INITIAL), moves);
            && f.cp.state.finalAnswer.Some?
            && Straight(g, tool, messages, maxSteps) == Finished(f.cp.state.messages, f.cp.state.finalAnswer.value)
  {
    D.Reachable(g.modes, []);
    BeginHolds(g, task, messages, maxSteps, D.INITIAL);
    FollowByFunction(tool, g, messages, Begin(task, messages, maxSteps, D.INITIAL), moves);
    TransparentFor(g, tool, task, messages, maxSteps, D.INITIAL, moves);
  }
}
