/** What the logs say is what happened: the guarantees about tool effects in terms of the steps of a run alone
    (backend/app/approved_execution.py, backend/app/executions/recovery.py). */
module Observations {
  import opened Values
  import A = ApprovalModel
  import L = LedgerModel
  import E = ExecutionProtocol
  import LI = LedgerInvariant
  import LG = LedgerGuarantees
  import O = ToolOutcomes
  import D = Deployment

  /** This step calls the tool under a claim on this row. */
  predicate CallsTool(s: E.State, act: E.Action, slot: L.Slot) {
    var p := E.PhaseOf(s, act.actor);
    act.Invoke? && p.Holding? && p.row.SlotOf() == slot
  }

  /** The row is EXECUTING and is not what it was. */
  predicate Claimed(before: L.Ledger, after: L.Ledger, slot: L.Slot) {
    slot in after && after[slot].status.EXECUTING? && L.Lookup(before, slot) != Some(after[slot])
  }

  function One(happened: bool): nat {
    if happened then 1 else 0
  }

  /** One step, one entry of the log of calls exactly when it calls the tool. */
  lemma {:induction false} CallIsLogged(modes: E.Modes, approvals: A.Approvals, s: E.State, act: E.Action, slot: L.Slot)
    ensures |At(E.Next(modes, approvals, s, act).core.invoked, slot)|
         == |At(s.core.invoked, slot)| + One(CallsTool(s, act, slot))
  {
    if !act.Invoke? || !E.PhaseOf(s, act.actor).Holding? {
      NoCall(modes, approvals, s, act);
    }
  }

  lemma NoCall(modes: E.Modes, approvals: A.Approvals, s: E.State, act: E.Action)
    requires !act.Invoke? || !E.PhaseOf(s, act.actor).Holding?
    ensures E.Next(modes, approvals, s, act).core.invoked == s.core.invoked
  {
  }

  /** One step, one entry of the log of claims exactly when it claims the row. */
  lemma {:induction false} StepIsLogged(modes: E.Modes, approvals: A.Approvals, s: E.State, act: E.Action, slot: L.Slot)
    requires LI.Inv(modes, approvals, s)
    ensures var t := E.Next(modes, approvals, s, act);
            |At(t.core.issued, slot)| == |At(s.core.issued, slot)| + One(Claimed(s.core.rows, t.core.rows, slot))
  {
    match (act, E.PhaseOf(s, act.actor))
    case (Claim(_, id, created, updated, fault), Missing(req)) =>
      ClaimIsLogged(s, act.actor, req, L.Candidate(id, req.task, req.approval, req.call, created, updated), fault,
                    slot);
    case (Reclaim(_, now, fault), Stale(req, expected)) =>
      if req.entry.Recover? { ReclaimIsLogged(s, act.actor, expected, req.entry.staleBefore, now, fault, slot); }
    case (Read(_, registered, inputValid), Authorized(req)) =>
      ReadIsLogged(modes, s, act.actor, req, registered, inputValid);
    case (Finish(_, now, fault), Called(claim, outcome)) =>
      O.FinishTells(modes, approvals, s, act.actor, claim, outcome, now, fault);
      FinishIsLogged(s, act.actor, claim, outcome, now, fault);
    case _ =>
  }

  lemma ClaimIsLogged(s: E.State, a: ActorId, req: E.Request, candidate: L.ToolExecution, fault: Fault, slot: L.Slot)
    requires candidate.status.EXECUTING?
    ensures var t := E.AfterClaim(s, a, req, candidate, fault);
            |At(t.core.issued, slot)| == |At(s.core.issued, slot)| + One(Claimed(s.core.rows, t.core.rows, slot))
  {
    var rows := L.ClaimedTable(s.core.rows, candidate, fault);
    assert rows != s.core.rows ==> candidate.SlotOf() !in s.core.rows && rows == s.core.rows[candidate.SlotOf() := candidate];
  }

  lemma ReclaimIsLogged(s: E.State, a: ActorId, expected: L.ToolExecution, staleBefore: Time, now: Time, fault: Fault,
                        slot: L.Slot)
    ensures E.AfterReclaim(s, a, expected, staleBefore, now, fault).core
         == E.ReclaimCore(s.core, expected, staleBefore, now, fault)
    ensures var core := E.ReclaimCore(s.core, expected, staleBefore, now, fault);
            |At(core.issued, slot)| == |At(s.core.issued, slot)| + One(Claimed(s.core.rows, core.rows, slot))
  {
    var core := E.ReclaimCore(s.core, expected, staleBefore, now, fault);
    if core.rows == s.core.rows {
      assert core.issued == s.core.issued;
    } else {
      var k := expected.SlotOf();
      assert core.rows == s.core.rows[k := L.Renewal(s.core.rows[k], expected, now)];
      assert core.issued == Append(s.core.issued, k, Max(now, expected.updatedAt + 1));
    }
  }

  lemma ReadIsLogged(modes: E.Modes, s: E.State, a: ActorId, req: E.Request, registered: bool, inputValid: bool)
    ensures var t := E.AfterRead(modes, s, a, req, registered, inputValid);
            t.core.issued == s.core.issued && t.core.rows == s.core.rows
  {
  }

  lemma FinishIsLogged(s: E.State, a: ActorId, claim: L.ToolExecution, outcome: E.Outcome, now: Time, fault: Fault)
    ensures var t := E.AfterFinish(s, a, claim, outcome, now, fault);
            t.core.issued == s.core.issued
  {
  }

  /* ---- counting steps ---- */

  /** The calls of the tool in a run. */
  function Effects(modes: E.Modes, steps: seq<D.Step>, slot: L.Slot): nat {
    if steps == [] then 0
    else
      var init := steps[..|steps| - 1];
      Effects(modes, init, slot)
      + One(Last(steps).OnLedger? && CallsTool(D.Run(modes, D.INITIAL, init).ledger, Last(steps).ledger, slot))
  }

  /** The steps of a run that claimed the row. */
  function Claims(modes: E.Modes, steps: seq<D.Step>, slot: L.Slot): nat {
    if steps == [] then 0
    else
      var init := steps[..|steps| - 1];
      Claims(modes, init, slot)
      + One(Claimed(D.Run(modes, D.INITIAL, init).ledger.core.rows, D.Run(modes, D.INITIAL, steps).ledger.core.rows,
                    slot))
  }

  /** The logs hold one entry for each. */
  lemma {:induction false} RunIsLogged(modes: E.Modes, steps: seq<D.Step>, slot: L.Slot)
    ensures var core := D.Run(modes, D.INITIAL, steps).ledger.core;
            |At(core.invoked, slot)| == Effects(modes, steps, slot)
            && |At(core.issued, slot)| == Claims(modes, steps, slot)
  {
    if steps != [] {
      var init := steps[..|steps| - 1];
      var w := D.Run(modes, D.INITIAL, init);
      RunIsLogged(modes, init, slot);
      D.Reachable(modes, init);
      if Last(steps).OnLedger? {
        CallIsLogged(modes, w.business.rows.approvals, w.ledger, Last(steps).ledger, slot);
        StepIsLogged(modes, w.business.rows.approvals, w.ledger, Last(steps).ledger, slot);
      }
    }
  }

  /** In every run the tool is called at most once for each step that claimed the row, never without a claim, and at most
      once in all when it has no recovery capability. */
  lemma {:induction false} EffectsAreBounded(modes: E.Modes, steps: seq<D.Step>, slot: L.Slot)
    ensures Effects(modes, steps, slot) <= Claims(modes, steps, slot)
    ensures var rows := D.Run(modes, D.INITIAL, steps).ledger.core.rows;
            if slot in rows then modes(rows[slot].toolName) == NONE ==> Effects(modes, steps, slot) <= 1
            else Effects(modes, steps, slot) == 0
  {
    RunIsLogged(modes, steps, slot);
    LG.AtMostOnce(modes, steps, slot);
  }
}
