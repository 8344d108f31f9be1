/** The second attempt on an abandoned tool call, by an actor that is alone: when the tool answers, so does the attempt
    (backend/app/executions/recovery.py). */
module SecondAttempt {
  import opened Values
  import A = ApprovalModel
  import L = LedgerModel
  import E = ExecutionProtocol
  import LI = LedgerInvariant
  import X = ApprovedExecution
  import D = Deployment
  import TR = TaskRecovery

  /** The tool may be called again and answers, and no fault comes between. */
  predicate Serves(tool: X.Conditions) {
    tool.permitted && tool.registered && tool.reclaimFault.Fine? && tool.finishFault.Fine? && tool.outcome.Content?
  }

  /** An attempt of a retryable tool under this approval was left open before the cutoff. */
  ghost predicate Retriable(modes: E.Modes, w: D.World, req: E.Request) {
    var rows, slot := w.ledger.core.rows, req.SlotOf();
    && req.entry.Recover? && slot in rows && E.Matches(rows[slot], req)
    && (rows[slot].status.EXECUTING? || rows[slot].status.UNKNOWN?) && rows[slot].updatedAt <= req.entry.staleBefore
    && !modes(req.call.name).NONE? && A.Authorizes(w.business.rows.approvals, req.approval, req.task, req.call)
  }

  /** The steps up to the read of the row. */
  function FirstSteps(me: ActorId, req: E.Request, c: X.Conditions): seq<D.Step> {
    [D.OnLedger(E.Begin(me, req)), D.OnLedger(E.Validate(me, c.permitted)),
     D.OnLedger(E.Read(me, c.registered, c.inputValid))]
  }

  /** The steps of a renewed claim. */
  function Renewed(me: ActorId, c: X.Conditions): seq<D.Step> {
    [D.OnLedger(E.Reclaim(me, c.reclaimNow, c.reclaimFault)), D.OnLedger(E.Invoke(me, c.outcome)),
     D.OnLedger(E.Finish(me, c.finishNow, c.finishFault))]
  }

  /** Entered, authorized, and at the abandoned row. */
  lemma {:induction false} AttemptOpens(modes: E.Modes, w: D.World, me: ActorId, req: E.Request, c: X.Conditions,
                                        steps: seq<D.Step>)
    requires Retriable(modes, w, req) && Serves(c)
    requires E.PhaseOf(w.ledger, me).Idle? || E.PhaseOf(w.ledger, me).Done?
    requires |steps| >= 3 && steps[..3] == FirstSteps(me, req, c)
    ensures var u, v, x := D.Run(modes, w, steps[..1]), D.Run(modes, w, steps[..2]), D.Run(modes, w, steps[..3]);
            && E.PhaseOf(u.ledger, me).Entered? && E.PhaseOf(v.ledger, me).Authorized?
            && E.PhaseOf(x.ledger, me) == E.Stale(req, w.ledger.core.rows[req.SlotOf()])
            && x.ledger.core.rows == w.ledger.core.rows
  {
    assert steps[..1] == [] + [steps[0]] && steps[..2] == steps[..1] + [steps[1]] && steps[..3] == steps[..2] + [steps[2]];
    assert steps[0] == steps[..3][0] && steps[1] == steps[..3][1] && steps[2] == steps[..3][2];
    D.RunAppend(modes, w, [], steps[0]);
    D.RunAppend(modes, w, steps[..1], steps[1]);
    D.RunAppend(modes, w, steps[..2], steps[2]);
    var v := D.Run(modes, w, steps[..2]);
    assert v.ledger.core.rows == w.ledger.core.rows && E.PhaseOf(v.ledger, me) == E.Authorized(req);
    X.FindingOutcome(modes, v, me, req, c.registered, c.inputValid);
  }

  /** The claim on the abandoned row is granted. */
  lemma ReclaimGranted(modes: E.Modes, w: D.World, me: ActorId, req: E.Request, row: L.ToolExecution, c: X.Conditions)
    requires D.Inv(modes, w) && req.entry.Recover? && c.reclaimFault.Fine?
    requires E.PhaseOf(w.ledger, me) == E.Stale(req, row) && L.Lookup(w.ledger.core.rows, row.SlotOf()) == Some(row)
    requires row.status.EXECUTING? || row.status.UNKNOWN?
    ensures var v, claim := D.Next(modes, w, D.OnLedger(E.Reclaim(me, c.reclaimNow, c.reclaimFault))), L.Renewal(row, row, c.reclaimNow);
            && E.PhaseOf(v.ledger, me) == E.Holding(claim) && claim.WellFormed() && claim.status.EXECUTING?
            && claim.Call() == req.call
            && L.Lookup(v.ledger.core.rows, claim.SlotOf()) == Some(claim)
  {
    assert LI.PhaseOk(modes, w.business.rows.approvals, w.ledger.core, E.PhaseOf(w.ledger, me));
    X.ReclaimStepped(modes, w, me, req, row, c);
  }

  /** The tool answers and its answer is stored. */
  lemma CallSettles(modes: E.Modes, w: D.World, me: ActorId, claim: L.ToolExecution, c: X.Conditions)
    requires E.PhaseOf(w.ledger, me) == E.Holding(claim) && claim.WellFormed() && claim.status.EXECUTING?
    requires L.Lookup(w.ledger.core.rows, claim.SlotOf()) == Some(claim) && c.outcome.Content? && c.finishFault.Fine?
    ensures var v := D.Next(modes, w, D.OnLedger(E.Invoke(me, c.outcome)));
            && E.PhaseOf(v.ledger, me).Called?
            && E.PhaseOf(D.Next(modes, v, D.OnLedger(E.Finish(me, c.finishNow, c.finishFault))).ledger, me)
               == E.Done(E.Returned(claim.Call(), c.outcome.text))
  {
    var v := D.Next(modes, w, D.OnLedger(E.Invoke(me, c.outcome)));
    assert v.ledger.core.rows == w.ledger.core.rows && E.PhaseOf(v.ledger, me) == E.Called(claim, c.outcome);
    X.FinishInOneStep(modes, v, me, claim, c);
  }

  /** Claimed again, called, and settled. */
  lemma {:induction false} AttemptSettles(modes: E.Modes, w: D.World, me: ActorId, req: E.Request, row: L.ToolExecution,
                                          c: X.Conditions,
                                          steps: seq<D.Step>)
    requires D.Inv(modes, w) && req.entry.Recover? && Serves(c)
    requires E.PhaseOf(w.ledger, me) == E.Stale(req, row) && L.Lookup(w.ledger.core.rows, row.SlotOf()) == Some(row)
    requires row.status.EXECUTING? || row.status.UNKNOWN?
    requires steps == Renewed(me, c)
    ensures E.PhaseOf(D.Run(modes, w, steps[..1]).ledger, me).Holding?
    ensures E.PhaseOf(D.Run(modes, w, steps[..2]).ledger, me).Called?
    ensures E.PhaseOf(D.Run(modes, w, steps).ledger, me) == E.Done(E.Returned(req.call, c.outcome.text))
  {
    ReclaimGranted(modes, w, me, req, row, c);
    CallSettles(modes, D.Next(modes, w, steps[0]), me, L.Renewal(row, row, c.reclaimNow), c);
    RunThree(modes, w, steps);
  }

  lemma {:induction false} RunThree(modes: E.Modes, w: D.World, steps: seq<D.Step>)
    requires |steps| == 3
    ensures D.Run(modes, w, steps[..1]) == D.Next(modes, w, steps[0])
    ensures D.Run(modes, w, steps[..2]) == D.Next(modes, D.Next(modes, w, steps[0]), steps[1])
    ensures D.Run(modes, w, steps) == D.Next(modes, D.Next(modes, D.Next(modes, w, steps[0]), steps[1]), steps[2])
  {
    assert steps[..1] == [] + [steps[0]] && steps[..2] == steps[..1] + [steps[1]] && steps == steps[..2] + [steps[2]];
    D.RunAppend(modes, w, [], steps[0]);
    D.RunAppend(modes, w, steps[..1], steps[1]);
    D.RunAppend(modes, w, steps[..2], steps[2]);
  }

  /** At an abandoned row the steps of execute() do nothing. */
  lemma {:induction false} StandsStill(modes: E.Modes, w: D.World, me: ActorId, c: X.Conditions, steps: seq<D.Step>)
    requires E.PhaseOf(w.ledger, me).Stale? && (forall step | step in steps :: step in X.ExecuteScript(me, c))
    ensures D.Run(modes, w, steps) == w
  {
    if steps != [] {
      StandsStill(modes, w, me, c, steps[..|steps| - 1]);
      assert Last(steps) in X.ExecuteScript(me, c);
    }
  }

  /** The attempt on this state is over only when it was answered. */
  ghost predicate AnsweredIfOver(modes: E.Modes, w: D.World, me: ActorId, call: ToolCall, text: string,
                                 steps: seq<D.Step>) {
    var p := E.PhaseOf(D.Run(modes, w, steps).ledger, me);
    p.Done? ==> p == E.Done(E.Returned(call, text))
  }

  lemma {:induction false} OverAtTheEnd(modes: E.Modes, w: D.World, me: ActorId, call: ToolCall, text: string,
                                        steps: seq<D.Step>, n: nat)
    requires |steps| == 3 && n <= 3 && E.PhaseOf(w.ledger, me).Stale?
    requires E.PhaseOf(D.Run(modes, w, steps[..1]).ledger, me).Holding?
    requires E.PhaseOf(D.Run(modes, w, steps[..2]).ledger, me).Called?
    requires E.PhaseOf(D.Run(modes, w, steps).ledger, me) == E.Done(E.Returned(call, text))
    ensures AnsweredIfOver(modes, w, me, call, text, steps[..n])
  {
    assert n == 3 ==> steps[..n] == steps;
    assert n == 0 ==> steps[..n] == [];
  }

  lemma {:induction false} OpeningIsNotOver(modes: E.Modes, w: D.World, me: ActorId, req: E.Request, c: X.Conditions,
                                            steps: seq<D.Step>, n: nat,
                                            text: string)
    requires Retriable(modes, w, req) && Serves(c)
    requires E.PhaseOf(w.ledger, me).Idle? || E.PhaseOf(w.ledger, me).Done?
    requires 0 < n <= 3 <= |steps| && steps[..3] == FirstSteps(me, req, c)
    ensures AnsweredIfOver(modes, w, me, req.call, text, steps[..n])
  {
    AttemptOpens(modes, w, me, req, c, steps);
    assert n == 1 ==> steps[..n] == steps[..1];
    assert n == 2 ==> steps[..n] == steps[..2];
    assert n == 3 ==> steps[..n] == steps[..3];
  }

  /** After the opening, the rest of the attempt. */
  lemma {:induction false} RestIsOver(modes: E.Modes, w: D.World, me: ActorId, req: E.Request, c: X.Conditions,
                                      opening: seq<D.Step>,
                                      rest: seq<D.Step>, n: nat)
    requires D.Inv(modes, w) && Retriable(modes, w, req) && Serves(c)
    requires E.PhaseOf(w.ledger, me).Idle? || E.PhaseOf(w.ledger, me).Done?
    requires opening == FirstSteps(me, req, c) && n <= |rest|
    requires rest == X.ExecuteScript(me, c) || rest == Renewed(me, c)
    ensures AnsweredIfOver(modes, w, me, req.call, c.outcome.text, opening + rest[..n])
  {
    var row := w.ledger.core.rows[req.SlotOf()];
    var x := D.Run(modes, w, opening);
    assert opening[..3] == opening;
    AttemptOpens(modes, w, me, req, c, opening);
    D.RunConcat(modes, w, opening, rest[..n]);
    if rest == Renewed(me, c) {
      assert D.Inv(modes, x) by { D.RunKeeps(modes, w, opening); }
      AttemptSettles(modes, x, me, req, row, c, rest);
      OverAtTheEnd(modes, x, me, req.call, c.outcome.text, rest, n);
    } else {
      StandsStill(modes, x, me, c, rest[..n]);
    }
  }

  /** An attempt that is over was answered. */
  lemma {:induction false} AttemptAnswers(modes: E.Modes, w: D.World, me: ActorId, approval: ApprovalId, id: TaskId,
                                          call: ToolCall,
                                          redo: TR.Redo, c: TR.Circumstances)
    requires D.Inv(modes, w) && Retriable(modes, w, E.Request(E.Recover(TR.Cutoff(c)), approval, id, call))
    requires Serves(c.tool)
    requires E.PhaseOf(w.ledger, me).Idle? || E.PhaseOf(w.ledger, me).Done?
    requires redo.Redo?
    ensures AnsweredIfOver(modes, w, me, call, c.tool.outcome.text, TR.Redone(me, redo, approval, id, call, c))
  {
    var req := E.Request(E.Recover(TR.Cutoff(c)), approval, id, call);
    var attempt, steps := TR.Attempt(me, approval, id, call, redo.cached, c), TR.Redone(me, redo, approval, id, call, c);
    var opening, rest := FirstSteps(me, req, c.tool), if redo.cached then X.ExecuteScript(me, c.tool)
                                                      else Renewed(me, c.tool);
    assert attempt == opening + rest;
    var n := |steps|;
    assert steps == attempt[..n];
    if n <= 3 {
      assert attempt[..3] == opening;
      OpeningIsNotOver(modes, w, me, req, c.tool, attempt, n, c.tool.outcome.text);
    } else {
      assert steps == opening + rest[..n - 3];
      RestIsOver(modes, w, me, req, c.tool, opening, rest, n - 3);
    }
  }
}
