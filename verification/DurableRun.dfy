/** One workflow over the whole deployment: its checkpoint moves node by node, while any number of
    other actors work on the same tables. Crashes need no move of their own: a node that did not
    complete leaves the checkpoint where it was. */
module DurableRun {
  import opened Values
  import opened AgentGraph
  import opened GraphRuns
  import A = ApprovalModel
  import L = LedgerModel
  import E = ExecutionProtocol
  import LI = LedgerInvariant
  import B = BusinessProtocol
  import D = Deployment

  /** What does not change during a run. */
  datatype Setting = Setting(llm: seq<Message> -> LlmReply, tools: Toolbox, modes: E.Modes)

  datatype Flow = Flow(cp: Checkpoint, world: D.World)

  datatype Move =
    | Elsewhere(step: D.Step)         // any transaction of any actor
    | Node(newId: ApprovalId)         // the next node completes and its checkpoint is stored

  /** What execute() returns for this call: the content of a settled row claimed under this approval. */
  function FromLedger(w: D.World, task: TaskId, approval: ApprovalId): ToolCall -> Result<string> {
    (call: ToolCall) =>
      if !A.Authorizes(w.business.rows.approvals, approval, task, call) then Err(ResumeAuthorization)
      else
        match L.Lookup(w.ledger.core.rows, L.Slot(task, call.id))
        case None => Err(ReplayBlocked)
        case Some(row) =>
          match E.Replay(row, E.Request(E.Execute, approval, task, call))
          case Returned(_, content) => Ok(content)
          case Raised(e) => Err(e)
  }

  /** Requests are stored under fresh ids, and only the pause of this workflow stores its request. */
  predicate Respects(f: Flow, step: D.Step) {
    step.OnBusiness? && step.business.Pause? && f.cp.state.pending.Some?
    && step.business.approval.id == f.cp.state.pending.value.id ==>
      step.business.approval.Covers(f.cp.state.taskId, f.cp.state.pending.value.call)
  }

  function TurnAt(g: Setting, f: Flow, newId: ApprovalId): Turn {
    var s := f.cp.state;
    match f.cp.next
    case Llm => Ask(g.llm)
    case Tool => Work(g.tools, FromLedger(f.world, s.taskId, if s.pending.Some? then s.pending.value.id else 0), newId)
    case ApprovalPause => Permit(s.taskId, if s.pending.Some? then s.pending.value.id else 0)
    case End => Ask(g.llm)
  }

  /** A pause is resumed only after validate() has seen the persisted approval. */
  predicate MayResume(f: Flow) {
    f.cp.next.ApprovalPause? && f.cp.state.pending.Some? ==>
      A.Authorizes(f.world.business.rows.approvals, f.cp.state.pending.value.id, f.cp.state.taskId,
                   f.cp.state.pending.value.call)
  }

  function Act(g: Setting, f: Flow, move: Move): Flow {
    match move
    case Elsewhere(step) => if Respects(f, step) then f.(world := D.Next(g.modes, f.world, step)) else f
    case Node(newId) =>
      if newId in f.world.business.rows.approvals || !MayResume(f) then f
      else match Advance(f.cp, TurnAt(g, f, newId)) case Some(cp) => f.(cp := cp) case None => f
  }

  function Follow(g: Setting, f: Flow, moves: seq<Move>): Flow {
    if moves == [] then f else Act(g, Follow(g, f, moves[..|moves| - 1]), Last(moves))
  }

  /* ---- invariant ---- */

  /** The ledger holds exactly this answer to exactly this call, under a persisted approval. */
  ghost predicate Recorded(w: D.World, task: TaskId, call: ToolCall, content: string) {
    var slot := L.Slot(task, call.id);
    && slot in w.ledger.core.rows
    && w.ledger.core.rows[slot].status.SUCCEEDED?
    && w.ledger.core.rows[slot].result == Some(content)
    && w.ledger.core.rows[slot].Call() == call
    && A.Authorizes(w.business.rows.approvals, w.ledger.core.rows[slot].approvalId, task, call)
  }

  /** Every tool message that answers a protected call is backed by the ledger. */
  ghost predicate Honest(g: Setting, w: D.World, task: TaskId, messages: seq<Message>) {
    messages != [] ==>
      var init := messages[..|messages| - 1];
      && Honest(g, w, task, init)
      && (Last(messages).ToolResult? ==>
            && Owed(init).Some? && Owed(init).value != []
            && (!g.tools.sideEffectFree(Owed(init).value[0].name) ==> Recorded(w, task, Owed(init).value[0], Last(messages).content)))
  }

  ghost predicate Inv(g: Setting, base: seq<Message>, f: Flow) {
    var s := f.cp.state;
    && D.Inv(g.modes, f.world)
    && Sound(base, f.cp)
    && Honest(g, f.world, s.taskId, s.messages[|base|..])
    && (s.pending.Some? ==>
          && ProtectedExecute(g.tools, s.pending.value.call).NeedsApproval?
          && (s.pending.value.id in f.world.business.rows.approvals ==>
                f.world.business.rows.approvals[s.pending.value.id].Covers(s.taskId, s.pending.value.call)))
  }

  lemma RecordedSurvives(w: D.World, v: D.World, task: TaskId, call: ToolCall, content: string)
    requires Recorded(w, task, call, content) && D.Later(w, v)
    ensures Recorded(v, task, call, content)
  {
    var slot := L.Slot(task, call.id);
    assert LI.CellGrows(LI.CellAt(w.ledger.core, slot), LI.CellAt(v.ledger.core, slot));
  }

  lemma {:induction false} HonestSurvives(g: Setting, w: D.World, v: D.World, task: TaskId, messages: seq<Message>)
    requires Honest(g, w, task, messages) && D.Later(w, v)
    ensures Honest(g, v, task, messages)
  {
    if messages != [] {
      var init := messages[..|messages| - 1];
      HonestSurvives(g, w, v, task, init);
      if Last(messages).ToolResult? && !g.tools.sideEffectFree(Owed(init).value[0].name) {
        RecordedSurvives(w, v, task, Owed(init).value[0], Last(messages).content);
      }
    }
  }

  /** One more tool message. */
  lemma {:induction false} HonestAppend(g: Setting, w: D.World, task: TaskId, messages: seq<Message>, base: nat,
                                        call: ToolCall, content: string)
    requires base <= |messages| && Honest(g, w, task, messages[base..])
    requires Owed(messages[base..]).Some? && Owed(messages[base..]).value != []
    requires Owed(messages[base..]).value[0] == call
    requires !g.tools.sideEffectFree(call.name) ==> Recorded(w, task, call, content)
    ensures Honest(g, w, task, (messages + [ToolResult(call.id, content)])[base..])
  {
    var m := ToolResult(call.id, content);
    assert (messages + [m])[base..] == messages[base..] + [m];
    assert (messages[base..] + [m])[..|messages[base..]|] == messages[base..];
  }

  /** Calls run without approval are free of side effects, so the walk adds nothing to account for. */
  lemma {:induction false} WalkIsHonest(g: Setting, w: D.World, task: TaskId, base: seq<Message>, calls: seq<ToolCall>,
                                        cursor: nat, messages: seq<Message>)
    requires cursor <= |calls| && base <= messages
    requires Owed(messages[|base|..]) == Some(calls[cursor..])
    requires Honest(g, w, task, messages[|base|..])
    ensures var r := Walk(g.tools, calls, cursor, messages);
            r.Stopped? ==>
              && |base| <= |r.messages|
              && Honest(g, w, task, r.messages[|base|..])
              && (r.asked ==> r.cursor < |calls| && ProtectedExecute(g.tools, calls[r.cursor]).NeedsApproval?)
    decreases |calls| - cursor
  {
    if cursor < |calls| {
      match ProtectedExecute(g.tools, calls[cursor])
      case Ran(content) =>
        var m := ToolResult(calls[cursor].id, content);
        assert calls[cursor..][1..] == calls[cursor + 1..];
        OwedAppend(messages, |base|, m);
        HonestAppend(g, w, task, messages, |base|, calls[cursor], content);
        WalkIsHonest(g, w, task, base, calls, cursor + 1, messages + [m]);
      case _ =>
    }
  }

  /** An answer taken from the ledger is recorded there. */
  lemma LedgerAnswers(modes: E.Modes, w: D.World, task: TaskId, approval: ApprovalId, call: ToolCall)
    requires D.Inv(modes, w) && FromLedger(w, task, approval)(call).Ok?
    ensures Recorded(w, task, call, FromLedger(w, task, approval)(call).value)
  {
    assert LI.CellOk(modes, w.business.rows.approvals, L.Slot(task, call.id),
                     LI.CellAt(w.ledger.core, L.Slot(task, call.id)));
  }

  lemma {:induction false} ToolMoveKeeps(g: Setting, base: seq<Message>, f: Flow, newId: ApprovalId)
    requires Inv(g, base, f) && f.cp.next.Tool? && newId !in f.world.business.rows.approvals
    ensures Inv(g, base, Act(g, f, Node(newId)))
  {
    var s, w := f.cp.state, f.world;
    var turn := TurnAt(g, f, newId);
    AdvanceKeeps(base, f.cp, turn);
    if s.cursor < |s.toolCalls| && s.pending.Some? {
      var call := s.toolCalls[s.cursor];
      var result := turn.approved(call);
      if result.Ok? {
        LedgerAnswers(g.modes, w, s.taskId, s.pending.value.id, call);
        var m := ToolResult(call.id, result.value);
        assert s.toolCalls[s.cursor..][1..] == s.toolCalls[s.cursor + 1..];
        OwedAppend(s.messages, |base|, m);
        HonestAppend(g, w, s.taskId, s.messages, |base|, call, result.value);
        WalkIsHonest(g, w, s.taskId, base, s.toolCalls, s.cursor + 1, s.messages + [m]);
      }
    } else {
      WalkIsHonest(g, w, s.taskId, base, s.toolCalls, s.cursor, s.messages);
    }
  }

  lemma {:induction false} LlmMoveKeeps(g: Setting, base: seq<Message>, f: Flow, newId: ApprovalId)
    requires Inv(g, base, f) && f.cp.next.Llm?
    ensures Inv(g, base, Act(g, f, Node(newId)))
  {
    var s := f.cp.state;
    AdvanceKeeps(base, f.cp, Ask(g.llm));
    var r := LlmNode(g.llm, s);
    if r.Completed? && r.state.messages != s.messages {
      var m := Last(r.state.messages);
      assert r.state.messages[|base|..] == s.messages[|base|..] + [m];
      assert (s.messages[|base|..] + [m])[..|s.messages[|base|..]|] == s.messages[|base|..];
    }
  }

  lemma {:induction false} ActKeeps(g: Setting, base: seq<Message>, f: Flow, move: Move)
    requires Inv(g, base, f)
    ensures Inv(g, base, Act(g, f, move)) && D.Later(f.world, Act(g, f, move).world)
    ensures Act(g, f, move).cp.state.taskId == f.cp.state.taskId
  {
    LI.NoStep(f.world.ledger.core);
    match move
    case Elsewhere(step) =>
      D.NextKeeps(g.modes, f.world, step);
      if Respects(f, step) { ElsewhereKeeps(g, base, f, step); }
    case Node(newId) =>
      if newId !in f.world.business.rows.approvals && MayResume(f) {
        AdvanceKeeps(base, f.cp, TurnAt(g, f, newId));
        match f.cp.next
        case Llm => LlmMoveKeeps(g, base, f, newId);
        case Tool => ToolMoveKeeps(g, base, f, newId);
        case _ =>
      }
  }

  lemma {:induction false} ElsewhereKeeps(g: Setting, base: seq<Message>, f: Flow, step: D.Step)
    requires Inv(g, base, f) && Respects(f, step)
    ensures Inv(g, base, f.(world := D.Next(g.modes, f.world, step)))
  {
    var v := D.Next(g.modes, f.world, step);
    D.NextKeeps(g.modes, f.world, step);
    HonestSurvives(g, f.world, v, f.cp.state.taskId, f.cp.state.messages[|base|..]);
    if f.cp.state.pending.Some? {
      NewRequests(g.modes, f.world, step, f.cp.state.pending.value.id);
    }
  }

  /** A request enters the table only by the pause that carries it. */
  lemma NewRequests(modes: E.Modes, w: D.World, step: D.Step, id: ApprovalId)
    ensures var v := D.Next(modes, w, step);
            id !in w.business.rows.approvals && id in v.business.rows.approvals ==>
              step.OnBusiness? && step.business.Pause? && step.business.approval.id == id
              && v.business.rows.approvals[id] == step.business.approval
  {
    if step.OnBusiness? { OnlyPausesAsk(w.business, step.business, id); }
  }

  lemma OnlyPausesAsk(b: B.Business, act: B.Action, id: ApprovalId)
    ensures id !in b.rows.approvals && id in B.Next(b, act).rows.approvals ==>
              act.Pause? && act.approval.id == id && B.Next(b, act).rows.approvals[id] == act.approval
  {
  }

  lemma {:induction false} FollowKeeps(g: Setting, base: seq<Message>, f: Flow, moves: seq<Move>)
    requires Inv(g, base, f)
    ensures Inv(g, base, Follow(g, f, moves)) && D.Later(f.world, Follow(g, f, moves).world)
    ensures Follow(g, f, moves).cp.state.taskId == f.cp.state.taskId
  {
    if moves == [] {
      LI.NoStep(f.world.ledger.core);
    } else {
      var before := Follow(g, f, moves[..|moves| - 1]);
      FollowKeeps(g, base, f, moves[..|moves| - 1]);
      ActKeeps(g, base, before, Last(moves));
      D.LaterTransitive(f.world, before.world, Follow(g, f, moves).world);
    }
  }

  function Begin(task: TaskId, messages: seq<Message>, maxSteps: nat, world: D.World): Flow {
    Flow(Initial(task, messages, maxSteps), world)
  }

  lemma {:induction false} BeginHolds(g: Setting, task: TaskId, messages: seq<Message>, maxSteps: nat, world: D.World)
    requires D.Inv(g.modes, world)
    ensures Inv(g, messages, Begin(task, messages, maxSteps, world))
  {
    InitialOk(task, messages, maxSteps);
    assert messages[|messages|..] == [];
  }

  /** History agrees with the ledger: the i-th message since the start, if it answers a protected call,
      repeats the content that the ledger settled for that call under a persisted approval. */
  lemma {:induction false} HistoryAgrees(g: Setting, task: TaskId, messages: seq<Message>, maxSteps: nat,
                                         world: D.World, moves: seq<Move>, i: nat)
    requires D.Inv(g.modes, world)
    requires var f := Follow(g, Begin(task, messages, maxSteps, world), moves);
             |messages| <= i < |f.cp.state.messages| && f.cp.state.messages[i].ToolResult?
    ensures var f := Follow(g, Begin(task, messages, maxSteps, world), moves);
            var owed := Owed(f.cp.state.messages[|messages|..i]);
            && owed.Some? && owed.value != [] && owed.value[0].id == f.cp.state.messages[i].callId
            && (!g.tools.sideEffectFree(owed.value[0].name) ==> Recorded(f.world, task, owed.value[0],
                                                                         f.cp.state.messages[i].content))
  {
    BeginHolds(g, task, messages, maxSteps, world);
    FollowKeeps(g, messages, Begin(task, messages, maxSteps, world), moves);
    var f := Follow(g, Begin(task, messages, maxSteps, world), moves);
    var suffix := f.cp.state.messages[|messages|..];
    PrefixHonest(g, f.world, task, suffix, i - |messages|);
    assert suffix[..i - |messages|] == f.cp.state.messages[|messages|..i];
  }

  lemma {:induction false} PrefixHonest(g: Setting, w: D.World, task: TaskId, messages: seq<Message>, i: nat)
    requires Honest(g, w, task, messages) && Owed(messages).Some? && i < |messages| && messages[i].ToolResult?
    ensures var owed := Owed(messages[..i]);
            && owed.Some? && owed.value != [] && owed.value[0].id == messages[i].callId
            && (!g.tools.sideEffectFree(owed.value[0].name) ==> Recorded(w, task, owed.value[0], messages[i].content))
  {
    if i < |messages| - 1 {
      PrefixHonest(g, w, task, messages[..|messages| - 1], i);
      assert messages[..|messages| - 1][..i] == messages[..i];
    }
  }
}
