/** Every step of the execution protocol keeps the invariant. */
module LedgerSteps {
  import opened Values
  import opened LedgerModel
  import opened ApprovalModel
  import opened ExecutionProtocol
  import opened LedgerInvariant

  /** Decisions made meanwhile do not disturb the ledger. */
  lemma ApprovalsMayEvolve(modes: Modes, before: Approvals, after: Approvals, s: State)
    requires Inv(modes, before, s) && Evolves(before, after)
    ensures Inv(modes, after, s)
  {
    NoStep(s.core);
    forall k: Slot ensures CellOk(modes, after, k, CellAt(s.core, k)) {
      assert CellOk(modes, before, k, CellAt(s.core, k));
    }
    forall a: ActorId ensures PhaseOk(modes, after, s.core, PhaseOf(s, a)) {
      PhaseSurvives(modes, before, after, s.core, s.core, PhaseOf(s, a));
    }
  }

  /** Moving to a phase that claims nothing, over a table whose calls did not change. */
  lemma Move(modes: Modes, approvals: Approvals, s: State, a: ActorId, d: Core, p: Phase)
    requires Inv(modes, approvals, s)
    requires CoreOk(modes, approvals, d) && Grows(s.core, d) && d.invoked == s.core.invoked
    requires PhaseOk(modes, approvals, d, p) && !p.Holding?
    ensures Inv(modes, approvals, Enter(s.(core := d), a, p))
  {
    forall b: ActorId | b != a && PhaseOf(s, b).Holding?
      ensures !Spent(CellAt(d, PhaseOf(s, b).row.SlotOf()), PhaseOf(s, b).row.updatedAt)
    {
      assert PhaseOk(modes, approvals, s.core, PhaseOf(s, b));
    }
    Assemble(modes, approvals, s, a, d, p);
  }

  lemma Deliver(modes: Modes, approvals: Approvals, s: State, a: ActorId, d: Core, slot: Slot, reply: Reply)
    requires Inv(modes, approvals, s)
    requires CoreOk(modes, approvals, d) && Grows(s.core, d) && d.invoked == s.core.invoked
    requires reply.Returned? ==>
               var row := CellAt(d, slot).row;
               row.Some? && row.value.status.SUCCEEDED? && row.value.result == Some(reply.content)
    ensures Inv(modes, approvals, Answer(s.(core := d), a, slot, reply))
    ensures Grows(s.core, Answered(d, slot, reply))
  {
    AnswerKeeps(modes, approvals, d, slot, reply);
    GrowsTransitive(s.core, d, Answered(d, slot, reply));
    Move(modes, approvals, s, a, Answered(d, slot, reply), Done(reply));
  }

  /** Holding a generation that nobody held before. */
  lemma Hold(modes: Modes, approvals: Approvals, s: State, a: ActorId, d: Core, row: ToolExecution)
    requires Inv(modes, approvals, s)
    requires CoreOk(modes, approvals, d) && Grows(s.core, d) && d.invoked == s.core.invoked
    requires Backed(CellAt(d, row.SlotOf()), row) && !Spent(CellAt(d, row.SlotOf()), row.updatedAt)
    requires row.updatedAt !in CellAt(s.core, row.SlotOf()).issued
    ensures Inv(modes, approvals, Enter(s.(core := d), a, Holding(row)))
  {
    forall b: ActorId | b != a && PhaseOf(s, b).Holding?
      ensures !Spent(CellAt(d, PhaseOf(s, b).row.SlotOf()), PhaseOf(s, b).row.updatedAt)
      ensures !Rivals(Holding(row), PhaseOf(s, b))
    {
      assert PhaseOk(modes, approvals, s.core, PhaseOf(s, b));
    }
    Assemble(modes, approvals, s, a, d, Holding(row));
  }

  lemma GrowsTransitive(c: Core, d: Core, e: Core)
    requires Grows(c, d) && Grows(d, e)
    ensures Grows(c, e)
  {
    forall k: Slot ensures CellGrows(CellAt(c, k), CellAt(e, k)) {
      assert CellGrows(CellAt(c, k), CellAt(d, k)) && CellGrows(CellAt(d, k), CellAt(e, k));
    }
  }

  lemma {:induction false} ReadStep(modes: Modes, approvals: Approvals, s: State, a: ActorId, req: Request,
                                    registered: bool, inputValid: bool)
    requires Inv(modes, approvals, s) && Authorizes(approvals, req.approval, req.task, req.call)
    ensures Inv(modes, approvals, AfterRead(modes, s, a, req, registered, inputValid))
    ensures Grows(s.core, AfterRead(modes, s, a, req, registered, inputValid).core)
  {
    NoStep(s.core);
    var found := Lookup(s.core.rows, req.SlotOf());
    assert CellOk(modes, approvals, req.SlotOf(), CellAt(s.core, req.SlotOf()));
    if req.entry.Execute? && found.Some? {
      Deliver(modes, approvals, s, a, s.core, req.SlotOf(), Replay(found.value, req));
    } else {
      Move(modes, approvals, s, a, s.core, AfterRead(modes, s, a, req, registered, inputValid).phases[a]);
    }
  }

  lemma {:induction false} ClaimStep(modes: Modes, approvals: Approvals, s: State, a: ActorId, req: Request,
                                     candidate: ToolExecution, fault: Fault)
    requires Inv(modes, approvals, s)
    requires Authorizes(approvals, candidate.approvalId, candidate.taskId, candidate.Call())
    ensures Inv(modes, approvals, AfterClaim(s, a, req, candidate, fault))
    ensures Grows(s.core, AfterClaim(s, a, req, candidate, fault).core)
  {
    var d := ClaimCore(s.core, candidate, fault);
    ClaimKeeps(modes, approvals, s.core, candidate, fault);
    var slot := candidate.SlotOf();
    assert CellOk(modes, approvals, slot, CellAt(s.core, slot));
    match ClaimReply(s.core.rows, candidate, fault)
    case Err(e) => Move(modes, approvals, s, a, d, Done(Raised(e)));
    case Ok(Claimed(row, won)) =>
      if won {
        ClaimWon(modes, approvals, s.core, candidate, fault);
        Hold(modes, approvals, s, a, d, row);
      } else {
        assert d == s.core && row.SlotOf() == slot;
        Deliver(modes, approvals, s, a, d, slot, Replay(row, req));
      }
  }

  lemma {:induction false} ReclaimStep(modes: Modes, approvals: Approvals, s: State, a: ActorId,
                                       expected: ToolExecution, staleBefore: Time, now: Time, fault: Fault)
    requires Inv(modes, approvals, s)
    requires Abandoned(modes, CellAt(s.core, expected.SlotOf()), expected)
    ensures Inv(modes, approvals, AfterReclaim(s, a, expected, staleBefore, now, fault))
    ensures Grows(s.core, AfterReclaim(s, a, expected, staleBefore, now, fault).core)
  {
    var d := ReclaimCore(s.core, expected, staleBefore, now, fault);
    ReclaimKeeps(modes, approvals, s.core, expected, staleBefore, now, fault);
    match ReclaimReply(s.core.rows, expected, staleBefore, now, fault)
    case Err(e) => Move(modes, approvals, s, a, d, Done(Raised(e)));
    case Ok(None) => Move(modes, approvals, s, a, d, Done(Raised(ReplayBlocked)));
    case Ok(Some(row)) =>
      ReclaimWon(modes, approvals, s.core, expected, staleBefore, now, fault, row);
      Hold(modes, approvals, s, a, d, row);
  }

  lemma InvokeStep(modes: Modes, approvals: Approvals, s: State, a: ActorId, row: ToolExecution, outcome: Outcome)
    requires Inv(modes, approvals, s) && PhaseOf(s, a) == Holding(row)
    ensures Inv(modes, approvals, Enter(s.(core := InvokeCore(modes, s.core, row)), a, Called(row, outcome)))
    ensures Grows(s.core, InvokeCore(modes, s.core, row))
  {
    var d := InvokeCore(modes, s.core, row);
    assert PhaseOk(modes, approvals, s.core, PhaseOf(s, a));
    InvokeKeeps(modes, approvals, s.core, row);
    forall b: ActorId | b != a && PhaseOf(s, b).Holding?
      ensures !Spent(CellAt(d, PhaseOf(s, b).row.SlotOf()), PhaseOf(s, b).row.updatedAt)
    {
      assert PhaseOk(modes, approvals, s.core, PhaseOf(s, b));
      assert !Rivals(PhaseOf(s, a), PhaseOf(s, b));
    }
    assert CellGrows(CellAt(s.core, row.SlotOf()), CellAt(d, row.SlotOf()));
    Assemble(modes, approvals, s, a, d, Called(row, outcome));
  }

  lemma {:induction false} FinishStep(modes: Modes, approvals: Approvals, s: State, a: ActorId, row: ToolExecution,
                                      outcome: Outcome, now: Time, fault: Fault)
    requires Inv(modes, approvals, s) && PhaseOf(s, a) == Called(row, outcome)
    ensures Inv(modes, approvals, AfterFinish(s, a, row, outcome, now, fault))
    ensures Grows(s.core, AfterFinish(s, a, row, outcome, now, fault).core)
  {
    assert PhaseOk(modes, approvals, s.core, PhaseOf(s, a));
    VerdictIsSound(row, outcome, now);
    var candidate := Verdict(row, outcome, now).value;
    FinishKeeps(modes, approvals, s.core, row, candidate, fault);
    ReplyIsStored(s.core, row, outcome, now, fault);
    var failure := FinishError(s.core.rows, candidate, Some(row.updatedAt), fault);
    Deliver(modes, approvals, s, a, FinishCore(s.core, candidate, row.updatedAt, fault), row.SlotOf(),
            FinalReply(row, outcome, failure));
  }

  /** Whatever the tool reported, there is a terminal row for it. */
  lemma VerdictIsSound(row: ToolExecution, outcome: Outcome, now: Time)
    requires row.WellFormed() && row.status.EXECUTING?
    ensures var verdict := Verdict(row, outcome, now);
            verdict.Ok? && verdict.value.SameIdentity(row) && row.updatedAt <= verdict.value.updatedAt
  {
  }

  /** A content that reaches the caller is the one that the row now holds. */
  lemma ReplyIsStored(c: Core, row: ToolExecution, outcome: Outcome, now: Time, fault: Fault)
    requires Backed(CellAt(c, row.SlotOf()), row) && Verdict(row, outcome, now).Ok?
    ensures var candidate := Verdict(row, outcome, now).value;
            var reply := FinalReply(row, outcome, FinishError(c.rows, candidate, Some(row.updatedAt), fault));
            reply.Returned? ==>
              var stored := CellAt(FinishCore(c, candidate, row.updatedAt, fault), row.SlotOf()).row;
              stored.Some? && stored.value.status.SUCCEEDED? && stored.value.result == Some(reply.content)
  {
    var candidate := Verdict(row, outcome, now).value;
    if FinishError(c.rows, candidate, Some(row.updatedAt), fault).None? {
      FinishLands(c, row, candidate, fault);
    }
  }

  /** Whoever steps, the invariant holds afterwards and the ledger only grew. */
  lemma {:induction false} NextKeeps(modes: Modes, approvals: Approvals, s: State, act: Action)
    requires Inv(modes, approvals, s)
    ensures Inv(modes, approvals, Next(modes, approvals, s, act))
    ensures Grows(s.core, Next(modes, approvals, s, act).core)
  {
    var a := act.actor;
    var t := Next(modes, approvals, s, act);
    assert PhaseOk(modes, approvals, s.core, PhaseOf(s, a));
    NoStep(s.core);
    match (act, PhaseOf(s, a))
    case (Begin(_, req), Idle) => Move(modes, approvals, s, a, s.core, Entered(req));
    case (Begin(_, req), Done(_)) => Move(modes, approvals, s, a, s.core, Entered(req));
    case (Validate(_, permitted), Entered(req)) => Move(modes, approvals, s, a, s.core, t.phases[a]);
    case (Read(_, registered, inputValid), Authorized(req)) => ReadStep(modes, approvals, s, a, req, registered,
                                                                        inputValid);
    case (Claim(_, id, created, updated, fault), Missing(req)) =>
      ClaimStep(modes, approvals, s, a, req, Candidate(id, req.task, req.approval, req.call, created, updated), fault);
    case (Reclaim(_, now, fault), Stale(req, expected)) =>
      ReclaimStep(modes, approvals, s, a, expected, req.entry.staleBefore, now, fault);
    case (Invoke(_, outcome), Holding(row)) => InvokeStep(modes, approvals, s, a, row, outcome);
    case (Finish(_, now, fault), Called(row, outcome)) => FinishStep(modes, approvals, s, a, row, outcome, now, fault);
    case (Crash(_), _) => Move(modes, approvals, s, a, s.core, Idle);
    case _ =>
  }
}
