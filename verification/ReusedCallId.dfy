/** A run in which the model uses a tool call id again in a later round. The second request is approved and everything is
    quiet, the ledger row of the call is a success of the first approval, and recovery asks for a human. */
module ReusedCallId {
  import opened Values
  import T = TaskModel
  import A = ApprovalModel
  import L = LedgerModel
  import S = BusinessStore
  import B = BusinessProtocol
  import E = ExecutionProtocol
  import D = Deployment
  import RR = RecoveryRules
  import opened AgentGraph
  import opened DurableRun

  const CALL := ToolCall("call-1", "send", "{}")

  /** A model that asks for the same call, under the same id, whenever it is asked. */
  function Model(messages: seq<Message>): LlmReply {
    Said(None, [CALL])
  }

  function Always(call: ToolCall): bool { true }
  function Known(name: string): bool { true }
  function Never(name: string): bool { false }
  function NoAnswer(call: ToolCall): Result<string> { Err(ToolFailed) }
  function Modes(name: string): IdempotencyMode { NONE }

  const SETTING := Setting(Model, Toolbox(Always, Known, Never, NoAnswer), Modes)

  /* ---- what the run goes through ---- */

  function Asked(id: ApprovalId): A.ApprovalRow {
    A.ApprovalRow(id, 7, "call-1", "send", "{}", A.PENDING, 0, None)
  }

  function Granted(id: ApprovalId, at: Time): A.ApprovalRow {
    Asked(id).(status := A.APPROVED, decidedAt := Some(at))
  }

  function Row(status: T.TaskStatus, at: Time): T.TaskRow {
    T.TaskRow(7, status, "", None, None, 0, at)
  }

  function Claimed(): L.ToolExecution {
    L.Candidate(5, 7, 1, CALL, 2, 2)
  }

  function Sent(): L.ToolExecution {
    Claimed().(status := L.SUCCEEDED, result := Some("sent"))
  }

  function Request(): E.Request {
    E.Request(E.Execute, 1, 7, CALL)
  }

  /** The checkpoint of a round: what was said before, and where the round is. */
  function Round(before: seq<Message>, steps: nat, pending: Option<ApprovalId>, resumed: Option<ApprovalId>,
                 next: Node): Checkpoint {
    Checkpoint(GraphState(7, before + [Assistant(None, [CALL])], steps, 5, None, [CALL], 0,
                          if pending.Some? then Some(Pending(pending.value, 7, CALL)) else None, resumed), next)
  }

  const FIRST: seq<Message> := [Assistant(None, [CALL]), ToolResult("call-1", "sent")]

  function Answered(): Checkpoint {
    Checkpoint(GraphState(7, FIRST, 1, 5, None, [CALL], 1, None, None), Llm)
  }

  /** The checkpoint, the tables, what actors 0, 1 and 2 hold, and where actor 9 is in the ledger. */
  datatype Stage = Stage(cp: Checkpoint, tasks: S.Tasks, approvals: A.Approvals, rows: L.Ledger, hold0: B.Hold,
                         hold1: B.Hold, hold2: B.Hold, phase: E.Phase)

  predicate Shows(f: Flow, s: Stage) {
    && f.cp == s.cp && f.world.business.rows == S.Rows(s.tasks, s.approvals) && f.world.ledger.core.rows == s.rows
    && B.HoldOf(f.world.business, 0) == s.hold0 && B.HoldOf(f.world.business, 1) == s.hold1
    && B.HoldOf(f.world.business, 2) == s.hold2
    && E.PhaseOf(f.world.ledger, 9) == s.phase
  }

  function Empty(): Stage {
    Stage(Initial(7, [], 5), map[], map[], map[], B.Free, B.Free, B.Free, E.Idle)
  }

  function Created(): Stage {
    Stage(Initial(7, [], 5), map[7 := Row(T.TaskStatus.PENDING, 0)], map[], map[],
          B.Creating(Row(T.TaskStatus.PENDING, 0)), B.Free, B.Free, E.Idle)
  }

  function Launched(): Stage {
    Stage(Initial(7, [], 5), map[7 := Row(T.RUNNING, 0)], map[], map[], B.Captured(Row(T.RUNNING, 0)), B.Free, B.Free,
          E.Idle)
  }

  function Asking(): Stage {
    Stage(Round([], 1, None, None, Tool), map[7 := Row(T.RUNNING, 0)], map[], map[], B.Captured(Row(T.RUNNING, 0)),
          B.Free, B.Free, E.Idle)
  }

  function Stopped(): Stage {
    Stage(Round([], 1, Some(1), None, ApprovalPause), map[7 := Row(T.RUNNING, 0)], map[], map[],
          B.Captured(Row(T.RUNNING, 0)), B.Free, B.Free, E.Idle)
  }

  function Paused(): Stage {
    Stage(Round([], 1, Some(1), None, ApprovalPause), map[7 := Row(T.WAITING_APPROVAL, 1)], map[1 := Asked(1)], map[],
          B.Captured(Row(T.RUNNING, 0)), B.Free, B.Free, E.Idle)
  }

  function Approved(): Stage {
    Stage(Round([], 1, Some(1), None, ApprovalPause), map[7 := Row(T.RUNNING, 2)], map[1 := Granted(1, 1)], map[],
          B.Captured(Row(T.RUNNING, 0)), B.Dispatching(1), B.Free, E.Idle)
  }

  function Dispatched(): Stage {
    Stage(Round([], 1, Some(1), None, ApprovalPause), map[7 := Row(T.RUNNING, 2)], map[1 := Granted(1, 1)], map[],
          B.Captured(Row(T.RUNNING, 0)), B.Captured(Row(T.RUNNING, 2)), B.Free, E.Idle)
  }

  function Resumed(): Stage {
    Stage(Round([], 1, Some(1), Some(1), Tool), map[7 := Row(T.RUNNING, 2)], map[1 := Granted(1, 1)], map[],
          B.Captured(Row(T.RUNNING, 0)), B.Captured(Row(T.RUNNING, 2)), B.Free, E.Idle)
  }

  function Entered(): Stage {
    Stage(Round([], 1, Some(1), Some(1), Tool), map[7 := Row(T.RUNNING, 2)], map[1 := Granted(1, 1)], map[],
          B.Captured(Row(T.RUNNING, 0)), B.Captured(Row(T.RUNNING, 2)), B.Free, E.Entered(Request()))
  }

  function Validated(): Stage {
    Stage(Round([], 1, Some(1), Some(1), Tool), map[7 := Row(T.RUNNING, 2)], map[1 := Granted(1, 1)], map[],
          B.Captured(Row(T.RUNNING, 0)), B.Captured(Row(T.RUNNING, 2)), B.Free, E.Authorized(Request()))
  }

  function Missing(): Stage {
    Stage(Round([], 1, Some(1), Some(1), Tool), map[7 := Row(T.RUNNING, 2)], map[1 := Granted(1, 1)], map[],
          B.Captured(Row(T.RUNNING, 0)), B.Captured(Row(T.RUNNING, 2)), B.Free, E.Missing(Request()))
  }

  function Holding(): Stage {
    Stage(Round([], 1, Some(1), Some(1), Tool), map[7 := Row(T.RUNNING, 2)], map[1 := Granted(1, 1)],
          map[L.Slot(7, "call-1") := Claimed()], B.Captured(Row(T.RUNNING, 0)),
          B.Captured(Row(T.RUNNING, 2)), B.Free, E.Holding(Claimed()))
  }

  function Called(): Stage {
    Stage(Round([], 1, Some(1), Some(1), Tool), map[7 := Row(T.RUNNING, 2)], map[1 := Granted(1, 1)],
          map[L.Slot(7, "call-1") := Claimed()], B.Captured(Row(T.RUNNING, 0)),
          B.Captured(Row(T.RUNNING, 2)), B.Free, E.Called(Claimed(), E.Content("sent")))
  }

  function Settled(): Stage {
    Stage(Round([], 1, Some(1), Some(1), Tool), map[7 := Row(T.RUNNING, 2)], map[1 := Granted(1, 1)],
          map[L.Slot(7, "call-1") := Sent()],
          B.Captured(Row(T.RUNNING, 0)), B.Captured(Row(T.RUNNING, 2)), B.Free, E.Done(E.Returned(CALL, "sent")))
  }

  function AnsweredCall(): Stage {
    Stage(Answered(), map[7 := Row(T.RUNNING, 2)], map[1 := Granted(1, 1)], map[L.Slot(7, "call-1") := Sent()],
          B.Captured(Row(T.RUNNING, 0)), B.Captured(Row(T.RUNNING, 2)), B.Free, E.Done(E.Returned(CALL, "sent")))
  }

  function AskingAgain(): Stage {
    Stage(Round(FIRST, 2, None, None, Tool), map[7 := Row(T.RUNNING, 2)], map[1 := Granted(1, 1)],
          map[L.Slot(7, "call-1") := Sent()],
          B.Captured(Row(T.RUNNING, 0)), B.Captured(Row(T.RUNNING, 2)), B.Free, E.Done(E.Returned(CALL, "sent")))
  }

  function StoppedAgain(): Stage {
    Stage(Round(FIRST, 2, Some(2), None, ApprovalPause), map[7 := Row(T.RUNNING, 2)], map[1 := Granted(1, 1)],
          map[L.Slot(7, "call-1") := Sent()],
          B.Captured(Row(T.RUNNING, 0)), B.Captured(Row(T.RUNNING, 2)), B.Free, E.Done(E.Returned(CALL, "sent")))
  }

  function PausedAgain(): Stage {
    Stage(Round(FIRST, 2, Some(2), None, ApprovalPause), map[7 := Row(T.WAITING_APPROVAL, 3)],
          map[1 := Granted(1, 1), 2 := Asked(2)], map[L.Slot(7, "call-1") := Sent()],
          B.Captured(Row(T.RUNNING, 0)), B.Captured(Row(T.RUNNING, 2)), B.Free, E.Done(E.Returned(CALL, "sent")))
  }

  function ApprovedAgain(): Stage {
    Stage(Round(FIRST, 2, Some(2), None, ApprovalPause), map[7 := Row(T.RUNNING, 4)],
          map[1 := Granted(1, 1), 2 := Granted(2, 3)], map[L.Slot(7, "call-1") := Sent()],
          B.Captured(Row(T.RUNNING, 0)), B.Captured(Row(T.RUNNING, 2)), B.Dispatching(2), E.Done(E.Returned(CALL, "sent")))
  }

  function Moves(): seq<Move> {
    [Elsewhere(D.OnBusiness(B.Create(0, 7, "", 0, 0, Fine))),
     Elsewhere(D.OnBusiness(B.Launch(0, 0, Fine))),
     Node(1),
     Node(1),
     Elsewhere(D.OnBusiness(B.Pause(0, Asked(1), 1, Fine))),
     Elsewhere(D.OnBusiness(B.Decide(1, 1, true, 1, 2, Fine))),
     Elsewhere(D.OnBusiness(B.Dispatch(1))),
     Node(2),
     Elsewhere(D.OnLedger(E.Begin(9, Request()))),
     Elsewhere(D.OnLedger(E.Validate(9, true))),
     Elsewhere(D.OnLedger(E.Read(9, true, true))),
     Elsewhere(D.OnLedger(E.Claim(9, 5, 2, 2, Fine))),
     Elsewhere(D.OnLedger(E.Invoke(9, E.Content("sent")))),
     Elsewhere(D.OnLedger(E.Finish(9, 2, Fine))),
     Node(2),
     Node(2),
     Node(2),
     Elsewhere(D.OnBusiness(B.Pause(1, Asked(2), 3, Fine))),
     Elsewhere(D.OnBusiness(B.Decide(2, 2, true, 3, 4, Fine)))]
  }

  /** The flow after the first k moves. */
  function After(k: nat): Flow
    requires k <= 19
  {
    Follow(SETTING, Begin(7, [], 5, D.INITIAL), Moves()[..k])
  }

  lemma OneMore(k: nat)
    requires k < 19
    ensures After(k + 1) == Act(SETTING, After(k), Moves()[k])
  {
    assert Moves()[..k + 1][..k] == Moves()[..k];
  }

  /* ---- the business steps and the last ledger step, on their own tables ---- */

  lemma Pausing(b: B.Business, a: ActorId, id: ApprovalId, t: Time, at: Time)
    requires b.rows.tasks == map[7 := Row(T.RUNNING, t)] && B.HoldOf(b, a) == B.Captured(Row(T.RUNNING, t))
    requires id !in b.rows.approvals && 0 <= t <= at
    ensures var c := B.Next(b, B.Pause(a, Asked(id), at, Fine));
            c.rows == S.Rows(map[7 := Row(T.WAITING_APPROVAL, at)], b.rows.approvals[id := Asked(id)])
            && c.holds == b.holds
  {
  }

  lemma Approving(b: B.Business, a: ActorId, id: ApprovalId, decidedAt: Time, t: Time, at: Time)
    requires b.rows.tasks == map[7 := Row(T.WAITING_APPROVAL, t)] && B.HoldOf(b, a) == B.Free
    requires id in b.rows.approvals && b.rows.approvals[id] == Asked(id) && 0 <= t <= at && 0 <= decidedAt
    ensures var c := B.Next(b, B.Decide(a, id, true, decidedAt, at, Fine));
            c.rows == S.Rows(map[7 := Row(T.RUNNING, at)], b.rows.approvals[id := Granted(id, decidedAt)])
            && c.holds == b.holds[a := B.Dispatching(id)]
  {
  }

  lemma Launching(b: B.Business)
    requires b.rows == S.Rows(map[7 := Row(T.TaskStatus.PENDING, 0)], map[])
    requires B.HoldOf(b, 0) == B.Creating(Row(T.TaskStatus.PENDING, 0))
    ensures var c := B.Next(b, B.Launch(0, 0, Fine));
            c.rows == S.Rows(map[7 := Row(T.RUNNING, 0)], map[])
            && c.holds == b.holds[0 := B.Captured(Row(T.RUNNING, 0))]
  {
  }

  lemma Dispatching(b: B.Business)
    requires b.rows == S.Rows(map[7 := Row(T.RUNNING, 2)], map[1 := Granted(1, 1)])
    requires B.HoldOf(b, 1) == B.Dispatching(1)
    ensures var c := B.Next(b, B.Dispatch(1)); c.rows == b.rows && c.holds == b.holds[1 := B.Captured(Row(T.RUNNING, 2))]
  {
  }

  lemma Claiming(approvals: A.Approvals, s: E.State)
    requires s.core.rows == map[] && E.PhaseOf(s, 9) == E.Missing(Request())
    ensures var t := E.Next(Modes, approvals, s, E.Claim(9, 5, 2, 2, Fine));
            t.core.rows == map[L.Slot(7, "call-1") := Claimed()] && E.PhaseOf(t, 9) == E.Holding(Claimed())
  {
  }

  lemma Settling(approvals: A.Approvals, s: E.State)
    requires s.core.rows == map[L.Slot(7, "call-1") := Claimed()]
    requires E.PhaseOf(s, 9) == E.Called(Claimed(), E.Content("sent"))
    ensures var t := E.Next(Modes, approvals, s, E.Finish(9, 2, Fine));
            t.core.rows == map[L.Slot(7, "call-1") := Sent()] && E.PhaseOf(t, 9) == E.Done(E.Returned(CALL, "sent"))
  {
  }

  /* ---- the run, move by move ---- */

  lemma BusinessMove(k: nat, act: B.Action)
    requires k < 19 && Moves()[k] == Elsewhere(D.OnBusiness(act)) && Respects(After(k), D.OnBusiness(act))
    ensures var f, g := After(k), After(k + 1);
            g.cp == f.cp && g.world.business == B.Next(f.world.business, act) && g.world.ledger == f.world.ledger
  {
    OneMore(k);
  }

  lemma LedgerMove(k: nat, act: E.Action)
    requires k < 19 && Moves()[k] == Elsewhere(D.OnLedger(act))
    ensures var f, g := After(k), After(k + 1);
            && g.cp == f.cp && g.world.business == f.world.business
            && g.world.ledger == E.Next(Modes, f.world.business.rows.approvals, f.world.ledger, act)
  {
    OneMore(k);
  }

  lemma Starts()
    ensures Shows(After(0), Empty())
  {
    assert Moves()[..0] == [];
  }

  lemma AfterCreate()
    ensures Shows(After(1), Created())
  {
    Starts();
    BusinessMove(0, B.Create(0, 7, "", 0, 0, Fine));
  }

  lemma AfterLaunch()
    ensures Shows(After(2), Launched())
  {
    AfterCreate();
    BusinessMove(1, B.Launch(0, 0, Fine));
    Launching(After(1).world.business);
  }

  lemma AfterAsk()
    ensures Shows(After(3), Asking())
  {
    AfterLaunch();
    OneMore(2);
  }

  lemma AfterStop()
    ensures Shows(After(4), Stopped())
  {
    AfterAsk();
    OneMore(3);
  }

  lemma AfterPause()
    ensures Shows(After(5), Paused())
  {
    AfterStop();
    BusinessMove(4, B.Pause(0, Asked(1), 1, Fine));
    Pausing(After(4).world.business, 0, 1, 0, 1);
  }

  lemma AfterApprove()
    ensures Shows(After(6), Approved())
  {
    AfterPause();
    BusinessMove(5, B.Decide(1, 1, true, 1, 2, Fine));
    Approving(After(5).world.business, 1, 1, 1, 1, 2);
  }

  lemma AfterDispatch()
    ensures Shows(After(7), Dispatched())
  {
    AfterApprove();
    BusinessMove(6, B.Dispatch(1));
    Dispatching(After(6).world.business);
  }

  lemma AfterResume()
    ensures Shows(After(8), Resumed())
  {
    AfterDispatch();
    OneMore(7);
  }

  lemma AfterEnter()
    ensures Shows(After(9), Entered())
  {
    AfterResume();
    LedgerMove(8, E.Begin(9, Request()));
  }

  lemma AfterValidate()
    ensures Shows(After(10), Validated())
  {
    AfterEnter();
    LedgerMove(9, E.Validate(9, true));
  }

  lemma AfterRead()
    ensures Shows(After(11), Missing())
  {
    AfterValidate();
    LedgerMove(10, E.Read(9, true, true));
  }

  lemma AfterClaim()
    ensures Shows(After(12), Holding())
  {
    AfterRead();
    LedgerMove(11, E.Claim(9, 5, 2, 2, Fine));
    Claiming(After(11).world.business.rows.approvals, After(11).world.ledger);
  }

  lemma AfterCall()
    ensures Shows(After(13), Called())
  {
    AfterClaim();
    LedgerMove(12, E.Invoke(9, E.Content("sent")));
  }

  lemma AfterSettle()
    ensures Shows(After(14), Settled())
  {
    AfterCall();
    LedgerMove(13, E.Finish(9, 2, Fine));
    Settling(After(13).world.business.rows.approvals, After(13).world.ledger);
  }

  lemma AfterAnswer()
    ensures Shows(After(15), AnsweredCall())
  {
    AfterSettle();
    OneMore(14);
  }

  lemma AfterAskAgain()
    ensures Shows(After(16), AskingAgain())
  {
    AfterAnswer();
    OneMore(15);
  }

  lemma AfterStopAgain()
    ensures Shows(After(17), StoppedAgain())
  {
    AfterAskAgain();
    OneMore(16);
  }

  lemma AfterPauseAgain()
    ensures Shows(After(18), PausedAgain())
  {
    AfterStopAgain();
    BusinessMove(17, B.Pause(1, Asked(2), 3, Fine));
    Pausing(After(17).world.business, 1, 2, 2, 3);
  }

  lemma AfterApproveAgain()
    ensures Shows(After(19), ApprovedAgain())
  {
    AfterPauseAgain();
    BusinessMove(18, B.Decide(2, 2, true, 3, 4, Fine));
    Approving(After(18).world.business, 2, 2, 3, 3, 4);
  }

  /** A state that the code reaches, in the window and quiet, with a call that has its result and an operator who is
      still asked. */
  lemma NeedsReview(checkpointId: nat, capability: RR.Capability)
    requires capability("send") == Some(NONE)
    ensures RR.QuietWindow(Follow(SETTING, Begin(7, [], 5, D.INITIAL), Moves()), 10)
    ensures var f := Follow(SETTING, Begin(7, [], 5, D.INITIAL), Moves());
            var rows, p := f.world.ledger.core.rows, f.cp.state.pending.value;
            && L.Slot(7, CALL.id) in rows && rows[L.Slot(7, CALL.id)].status.SUCCEEDED? && p.call == CALL
            && A.Authorizes(f.world.business.rows.approvals, p.id, 7, CALL)
            && RR.Classify(7, RR.ReadingOf(f, checkpointId, 10), capability) == RR.Review(false)
  {
    AfterApproveAgain();
    assert Moves()[..19] == Moves();
    D.Reachable(Modes, []);
    BeginHolds(SETTING, 7, [], 5, D.INITIAL);
    FollowKeeps(SETTING, [], Begin(7, [], 5, D.INITIAL), Moves());
    RR.ClassifiedInWindow(SETTING, [], After(19), checkpointId, 10, capability);
  }
}
