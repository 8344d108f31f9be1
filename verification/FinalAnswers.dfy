/** From the model's last word to the Task row: when every attempted success carries the answer that is stored at that
    moment, the result of a SUCCEEDED Task is the answer of its workflow, and so that of the run that never pauses. */
module FinalAnswers {
  import opened Values
  import T = TaskModel
  import B = BusinessProtocol
  import BI = BusinessInvariant
  import D = Deployment
  import opened AgentGraph
  import opened GraphRuns
  import RR = RecoveryRules
  import TR = Transparency
  import opened DurableRun

  /** This step tries to write a success of the Task. */
  predicate Concludes(b: B.Business, step: D.Step, task: TaskId) {
    && step.OnBusiness? && step.business.Write? && step.business.op.Succeed?
    && var h := B.HoldOf(b, step.business.actor); h.Captured? && h.row.id == task
  }

  /** A success of the Task carries the answer of the workflow as it is stored; Continuations shows this of each
      service. */
  predicate Reports(f: Flow, step: D.Step) {
    Concludes(f.world.business, step, f.cp.state.taskId) ==>
      f.cp.next.End? && f.cp.state.finalAnswer == Some(step.business.op.content)
  }

  predicate AllReport(g: Setting, f: Flow, moves: seq<Move>) {
    moves != [] ==>
      && AllReport(g, f, moves[..|moves| - 1])
      && (Last(moves).Elsewhere? ==> Reports(Follow(g, f, moves[..|moves| - 1]), Last(moves).step))
  }

  /** Recovery concludes a Task only with the answer of its ended workflow. */
  lemma ConclusionIsFinal(id: TaskId, r: RR.Reading, capability: RR.Capability)
    requires RR.Classify(id, r, capability).Conclude?
    ensures r.evidence.Evidence? && r.evidence.checkpoint.state.taskId == id && r.evidence.checkpoint.next.End?
            && r.evidence.checkpoint.state.finalAnswer == Some(RR.Classify(id, r, capability).answer)
  {
  }

  ghost predicate Succeeded(b: B.Business, task: TaskId) {
    task in b.rows.tasks && b.rows.tasks[task].status.SUCCEEDED?
  }

  /** A Task becomes SUCCEEDED only by a write that carries the result. */
  lemma {:induction false} SuccessIsWritten(b: B.Business, act: B.Action, task: TaskId)
    requires BI.Inv(b) && !Succeeded(b, task) && Succeeded(B.Next(b, act), task)
    ensures Concludes(b, D.OnBusiness(act), task) && B.Next(b, act).rows.tasks[task].result == Some(act.op.content)
  {
    var a := act.actor;
    assert BI.HoldOk(b, B.HoldOf(b, a));
    match (act, B.HoldOf(b, a))
    case (Write(_, op, now, fault), Captured(row)) => WriteSucceeds(b, a, row, op, now, fault, task);
    case (Decide(_, id, approve, decidedAt, now, fault), Free) => DecisionDoesNotSucceed(b, act, task);
    case _ =>
  }

  lemma WriteSucceeds(b: B.Business, a: ActorId, row: T.TaskRow, op: T.Operation, now: Time, fault: Fault, task: TaskId)
    requires BI.Inv(b) && B.HoldOf(b, a) == B.Captured(row)
    requires !Succeeded(b, task) && Succeeded(B.Next(b, B.Write(a, op, now, fault)), task)
    ensures op.Succeed? && row.id == task
    ensures B.Next(b, B.Write(a, op, now, fault)).rows.tasks[task].result == Some(op.content)
  {
  }

  lemma DecisionDoesNotSucceed(b: B.Business, act: B.Action, task: TaskId)
    requires BI.Inv(b) && act.Decide? && B.HoldOf(b, act.actor) == B.Free
    ensures Succeeded(B.Next(b, act), task) ==> Succeeded(b, task)
  {
    if B.Verdicts(b.rows, act.id, act.approve, act.decidedAt, act.now).Ok? {
      BI.VerdictsAreSound(b.rows, act.id, act.approve, act.decidedAt, act.now);
    }
  }

  /** The Task and its workflow agree. */
  ghost predicate Agrees(f: Flow) {
    Succeeded(f.world.business, f.cp.state.taskId) ==>
      f.cp.next.End? && f.cp.state.finalAnswer == f.world.business.rows.tasks[f.cp.state.taskId].result
  }

  lemma {:induction false} MoveAgrees(g: Setting, base: seq<Message>, f: Flow, move: Move)
    requires Inv(g, base, f) && Agrees(f) && (move.Elsewhere? ==> Reports(f, move.step))
    ensures Agrees(Act(g, f, move))
  {
    var task, b := f.cp.state.taskId, f.world.business;
    if move.Elsewhere? && Respects(f, move.step) && move.step.OnBusiness? {
      BI.NextKeeps(b, move.step.business);
      if !Succeeded(b, task) && Succeeded(B.Next(b, move.step.business), task) {
        SuccessIsWritten(b, move.step.business, task);
      }
    } else if move.Node? {
      ActKeeps(g, base, f, move);
    }
  }

  lemma {:induction false} RunAgrees(g: Setting, base: seq<Message>, f: Flow, moves: seq<Move>)
    requires Inv(g, base, f) && Agrees(f) && AllReport(g, f, moves)
    ensures Agrees(Follow(g, f, moves))
  {
    if moves != [] {
      RunAgrees(g, base, f, moves[..|moves| - 1]);
      FollowKeeps(g, base, f, moves[..|moves| - 1]);
      MoveAgrees(g, base, Follow(g, f, moves[..|moves| - 1]), Last(moves));
    }
  }

  /** End to end: however the run was paused, crashed, recovered and interleaved with others, the result of a SUCCEEDED Task
      is the final answer of its workflow, and that of the straight run over the answers that the ledger recorded. */
  lemma {:induction false} ResultIsTheAnswer(g: Setting, task: TaskId, messages: seq<Message>, maxSteps: nat,
                                             world: D.World, moves: seq<Move>)
    requires D.Inv(g.modes, world) && !Succeeded(world.business, task)
    requires var start := Begin(task, messages, maxSteps, world);
             AllReport(g, start, moves) && Succeeded(Follow(g, start, moves).world.business, task)
    ensures var f := Follow(g, Begin(task, messages, maxSteps, world), moves);
            var result := f.world.business.rows.tasks[task].result;
            && result.Some? && f.cp.state.finalAnswer == result
            && TR.Straight(g, TR.LedgerOracle(f.world, task), messages, maxSteps) ==
                 TR.Finished(f.cp.state.messages, result.value)
  {
    var start := Begin(task, messages, maxSteps, world);
    BeginHolds(g, task, messages, maxSteps, world);
    FollowKeeps(g, messages, start, moves);
    RunAgrees(g, messages, start, moves);
    TR.PausesAreTransparent(g, task, messages, maxSteps, world, moves);
  }
}
