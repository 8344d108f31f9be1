/** What a row of the ledger says about the tool, and what the caller is told, for every step of every run
    (backend/app/approved_execution.py, backend/app/executions/repository.py). */
module ToolOutcomes {
  import opened Values
  import A = ApprovalModel
  import L = LedgerModel
  import E = ExecutionProtocol
  import LI = LedgerInvariant
  import D = Deployment

  /** A settled row tells how the tool ended: a result, a known absence of an effect, or nothing certain. */
  predicate Tells(row: L.ToolExecution, outcome: E.Outcome) {
    match row.status
    case EXECUTING => false
    case SUCCEEDED => outcome.Content? && row.result == Some(outcome.text) && row.error.None?
    case FAILED => outcome.NoEffect? && row.result.None? && row.error == Some("known_no_effect")
    case UNKNOWN => (outcome.Unsure? || outcome.OtherError?) && row.result.None? && row.error == Some("outcome_unknown")
  }

  /** The row is still EXECUTING in the generation of this claim. */
  predicate Holds(rows: L.Ledger, claim: L.ToolExecution) {
    var slot := claim.SlotOf();
    slot in rows && rows[slot].status.EXECUTING? && rows[slot].updatedAt == claim.updatedAt
  }

  /** The table after the terminal write: the row tells the outcome if the claim still held it and the write was committed,
      and everything else is as it was. */
  ghost predicate Wrote(before: L.Ledger, after: L.Ledger, claim: L.ToolExecution, outcome: E.Outcome, now: Time,
                        fault: Fault) {
    var slot := claim.SlotOf();
    if Holds(before, claim) && (fault.Fine? || fault == CommitLost(true)) then
      && slot in after && Tells(after[slot], outcome) && after[slot].SameIdentity(before[slot])
      && after[slot].updatedAt == Max(claim.updatedAt, now)
      && forall k | k != slot :: L.Lookup(after, k) == L.Lookup(before, k)
    else after == before
  }

  /** The reply after the terminal write. A content that could not be stored is uncertain unless the claim was lost; an
      error of the tool is told as known to be without effect exactly when the tool said so. */
  predicate Replied(before: L.Ledger, claim: L.ToolExecution, outcome: E.Outcome, fault: Fault, reply: E.Reply) {
    var acknowledged := Holds(before, claim) && fault.Fine?;
    && (reply.Returned? <==> outcome.Content? && acknowledged)
    && (reply.Returned? ==> reply == E.Returned(claim.Call(), outcome.text))
    && (reply == E.Raised(FailedWithoutEffect) <==> outcome.NoEffect?)
    && (outcome.Unsure? ==> reply == E.Raised(OutcomeUnknown))
    && (outcome.OtherError? ==> reply == E.Raised(if acknowledged then OutcomeUnknown else ToolFailed))
    && (outcome.Content? && !acknowledged ==>
          reply == E.Raised(if Holds(before, claim) || fault.BodyError? then PersistenceUncertain
                            else PersistenceConflict))
  }

  /** The row of this claim, if the table has one, is the row that was claimed. */
  predicate Known(rows: L.Ledger, claim: L.ToolExecution) {
    && claim.WellFormed() && claim.status.EXECUTING?
    && claim.SlotOf() in rows && rows[claim.SlotOf()].SameIdentity(claim) && rows[claim.SlotOf()].WellFormed()
  }

  lemma VerdictTells(claim: L.ToolExecution, outcome: E.Outcome, now: Time)
    requires claim.WellFormed() && claim.status.EXECUTING?
    ensures var verdict := E.Verdict(claim, outcome, now);
            && verdict.Ok? && verdict.value.WellFormed() && verdict.value.SameIdentity(claim)
            && Tells(verdict.value, outcome) && verdict.value.updatedAt == Max(claim.updatedAt, now)
  {
  }

  lemma TableTells(rows: L.Ledger, claim: L.ToolExecution, settled: L.ToolExecution, outcome: E.Outcome, now: Time,
                   fault: Fault)
    requires Known(rows, claim) && settled.WellFormed() && settled.SameIdentity(claim) && Tells(settled, outcome)
    requires settled.updatedAt == Max(claim.updatedAt, now)
    ensures Wrote(rows, L.FinishedTable(rows, settled, Some(claim.updatedAt), fault), claim, outcome, now, fault)
  {
  }

  lemma ReplyTells(rows: L.Ledger, claim: L.ToolExecution, settled: L.ToolExecution, outcome: E.Outcome, fault: Fault)
    requires Known(rows, claim) && settled.WellFormed() && settled.SameIdentity(claim) && Tells(settled, outcome)
    ensures Replied(rows, claim, outcome, fault,
                    E.FinalReply(claim, outcome, L.FinishError(rows, settled, Some(claim.updatedAt), fault)))
  {
  }

  /** The finishing step of any actor, in any state. */
  lemma FinishTells(modes: E.Modes, approvals: A.Approvals, s: E.State, me: ActorId, claim: L.ToolExecution,
                    outcome: E.Outcome, now: Time, fault: Fault)
    requires LI.Inv(modes, approvals, s) && E.PhaseOf(s, me) == E.Called(claim, outcome)
    ensures var t := E.Next(modes, approvals, s, E.Finish(me, now, fault));
            && Wrote(s.core.rows, t.core.rows, claim, outcome, now, fault)
            && E.PhaseOf(t, me).Done? && Replied(s.core.rows, claim, outcome, fault, E.PhaseOf(t, me).reply)
  {
    ClaimIsKnown(modes, approvals, s, me);
    VerdictTells(claim, outcome, now);
    var settled := E.Verdict(claim, outcome, now).value;
    TableTells(s.core.rows, claim, settled, outcome, now, fault);
    ReplyTells(s.core.rows, claim, settled, outcome, fault);
    FinishStep(modes, approvals, s, me, claim, outcome, settled, now, fault);
  }

  lemma ClaimIsKnown(modes: E.Modes, approvals: A.Approvals, s: E.State, me: ActorId)
    requires LI.Inv(modes, approvals, s) && E.PhaseOf(s, me).Called?
    ensures Known(s.core.rows, E.PhaseOf(s, me).row)
  {
    var claim := E.PhaseOf(s, me).row;
    assert LI.PhaseOk(modes, approvals, s.core, E.PhaseOf(s, me));
    assert LI.CellOk(modes, approvals, claim.SlotOf(), LI.CellAt(s.core, claim.SlotOf()));
  }

  lemma FinishStep(modes: E.Modes, approvals: A.Approvals, s: E.State, me: ActorId, claim: L.ToolExecution,
                   outcome: E.Outcome, settled: L.ToolExecution, now: Time, fault: Fault)
    requires E.PhaseOf(s, me) == E.Called(claim, outcome) && E.Verdict(claim, outcome, now) == Ok(settled)
    requires settled.SameIdentity(claim)
    ensures var t := E.Next(modes, approvals, s, E.Finish(me, now, fault));
            && t.core.rows == L.FinishedTable(s.core.rows, settled, Some(claim.updatedAt), fault)
            && E.PhaseOf(t, me) ==
                 E.Done(E.FinalReply(claim, outcome, L.FinishError(s.core.rows, settled, Some(claim.updatedAt), fault)))
  {
  }

  /* ---- every row of every run ---- */

  /** The row is about this call of this Task under this approval. */
  predicate Same(row: L.ToolExecution, req: E.Request) {
    row.taskId == req.task && row.approvalId == req.approval && row.Call() == req.call
  }

  /** The row has not been written since it was read. */
  predicate Still(rows: L.Ledger, read: L.ToolExecution) {
    && read.SlotOf() in rows && rows[read.SlotOf()].status == read.status
    && rows[read.SlotOf()].updatedAt == read.updatedAt
  }

  /** The insert of a claim: the slot was empty, and the row is about what the actor was authorized for. */
  predicate Inserted(before: L.Ledger, act: E.Action, p: E.Phase, slot: L.Slot, row: L.ToolExecution) {
    && act.Claim? && p.Missing? && slot !in before && row.SlotOf() == slot && Same(row, p.req)
    && row.id == act.id == row.key && row.createdAt == act.created && row.updatedAt == act.updated
  }

  /** The renewal of an abandoned row: it is still what the actor read, and moves to a later generation. */
  predicate Renewed(before: L.Ledger, act: E.Action, p: E.Phase, slot: L.Slot, row: L.ToolExecution) {
    && act.Reclaim? && p.Stale? && slot == p.expected.SlotOf() && Still(before, p.expected) && !p.expected.Settled()
    && row.SameIdentity(before[slot]) && row.updatedAt == Max(act.now, p.expected.updatedAt + 1)
  }

  /** A step that changes a row claims it, or settles it as its actor's tool told. */
  ghost predicate Explained(s: E.State, t: E.State, act: E.Action, slot: L.Slot)
    requires slot in t.core.rows
  {
    var row, p := t.core.rows[slot], E.PhaseOf(s, act.actor);
    if row.status.EXECUTING? then
      row.WellFormed() && (Inserted(s.core.rows, act, p, slot, row) || Renewed(s.core.rows, act, p, slot, row))
    else act.Finish? && p.Called? && p.row.SlotOf() == slot && Holds(s.core.rows, p.row) && Tells(row, p.outcome)
  }

  lemma {:induction false} RowsAreExplained(modes: E.Modes, approvals: A.Approvals, s: E.State, act: E.Action,
                                            slot: L.Slot)
    requires LI.Inv(modes, approvals, s)
    requires var t := E.Next(modes, approvals, s, act);
             slot in t.core.rows && L.Lookup(s.core.rows, slot) != Some(t.core.rows[slot])
    ensures Explained(s, E.Next(modes, approvals, s, act), act, slot)
  {
    match (act, E.PhaseOf(s, act.actor))
    case (Claim(_, id, created, updated, fault), Missing(req)) =>
      ClaimedRows(s, act, req, slot);
    case (Reclaim(_, now, fault), Stale(req, expected)) =>
      RowReadIsKnown(modes, approvals, s, act.actor);
      RowIsKnown(modes, approvals, s, slot);
      ReclaimedRows(s, act, req, expected, slot);
    case (Read(_, registered, inputValid), Authorized(req)) => ReadRows(modes, s, act.actor, req, registered,
                                                                        inputValid);
    case (Finish(_, now, fault), Called(claim, outcome)) =>
      FinishTells(modes, approvals, s, act.actor, claim, outcome, now, fault);
    case _ =>
  }

  lemma ClaimedRows(s: E.State, act: E.Action, req: E.Request, slot: L.Slot)
    requires act.Claim? && E.PhaseOf(s, act.actor) == E.Missing(req)
    ensures var rows := E.AfterClaim(s, act.actor, req,
                                     L.Candidate(act.id, req.task, req.approval, req.call, act.created,
                                                                    act.updated), act.fault).core.rows;
            slot in rows && L.Lookup(s.core.rows, slot) != Some(rows[slot]) ==>
              && rows[slot].status.EXECUTING? && rows[slot].WellFormed()
              && Inserted(s.core.rows, act, E.PhaseOf(s, act.actor), slot, rows[slot])
  {
    var candidate := L.Candidate(act.id, req.task, req.approval, req.call, act.created, act.updated);
    assert E.ClaimCore(s.core, candidate, act.fault).rows == L.ClaimedTable(s.core.rows, candidate, act.fault);
  }

  lemma ReclaimedRows(s: E.State, act: E.Action, req: E.Request, read: L.ToolExecution, slot: L.Slot)
    requires act.Reclaim? && E.PhaseOf(s, act.actor) == E.Stale(req, read) && req.entry.Recover?
    requires slot in s.core.rows ==> s.core.rows[slot].WellFormed()
    ensures var rows := E.AfterReclaim(s, act.actor, read, req.entry.staleBefore, act.now, act.fault).core.rows;
            slot in rows && L.Lookup(s.core.rows, slot) != Some(rows[slot]) ==>
              && rows[slot].status.EXECUTING? && rows[slot].WellFormed()
              && Renewed(s.core.rows, act, E.PhaseOf(s, act.actor), slot, rows[slot])
  {
    assert E.ReclaimCore(s.core, read, req.entry.staleBefore, act.now, act.fault).rows
        == L.ReclaimedTable(s.core.rows, read, req.entry.staleBefore, act.now, act.fault);
  }

  lemma ReadRows(modes: E.Modes, s: E.State, a: ActorId, req: E.Request, registered: bool, inputValid: bool)
    ensures E.AfterRead(modes, s, a, req, registered, inputValid).core.rows == s.core.rows
  {
  }

  /** In every run a settled row was settled by one step, whose actor had called the tool and been told exactly this:
      FAILED only when the tool knew of no effect, SUCCEEDED only with its content, UNKNOWN for any other error. */
  lemma {:induction false} RowWasTold(modes: E.Modes, steps: seq<D.Step>, slot: L.Slot) returns (called: nat, told: nat)
    requires var rows := D.Run(modes, D.INITIAL, steps).ledger.core.rows; slot in rows && !rows[slot].status.EXECUTING?
    ensures called < told < |steps| && steps[told].OnLedger? && steps[told].ledger.Finish?
    ensures var row, me := D.Run(modes, D.INITIAL, steps).ledger.core.rows[slot], steps[told].ledger.actor;
            && steps[called].OnLedger? && steps[called].ledger.Invoke? && steps[called].ledger.actor == me
            && Tells(row, steps[called].ledger.outcome)
  {
    var init := steps[..|steps| - 1];
    var w, v := D.Run(modes, D.INITIAL, init), D.Run(modes, D.INITIAL, steps);
    if L.Lookup(w.ledger.core.rows, slot) == Some(v.ledger.core.rows[slot]) {
      called, told := RowWasTold(modes, init, slot);
    } else {
      D.Reachable(modes, init);
      RowsAreExplained(modes, w.business.rows.approvals, w.ledger, Last(steps).ledger, slot);
      told := |steps| - 1;
      called := CallWasMade(modes, init, Last(steps).ledger.actor);
    }
  }

  /** An actor that has called the tool did so by one step, with this outcome. */
  lemma {:induction false} CallWasMade(modes: E.Modes, steps: seq<D.Step>, me: ActorId) returns (k: nat)
    requires E.PhaseOf(D.Run(modes, D.INITIAL, steps).ledger, me).Called?
    ensures k < |steps| && steps[k].OnLedger?
    ensures steps[k].ledger == E.Invoke(me, E.PhaseOf(D.Run(modes, D.INITIAL, steps).ledger, me).outcome)
  {
    var init := steps[..|steps| - 1];
    var w := D.Run(modes, D.INITIAL, init);
    if E.PhaseOf(w.ledger, me) == E.PhaseOf(D.Run(modes, D.INITIAL, steps).ledger, me) {
      k := CallWasMade(modes, init, me);
    } else {
      OnlyInvokeCalls(modes, w.business.rows.approvals, w.ledger, Last(steps).ledger, me);
      k := |steps| - 1;
    }
  }

  lemma OnlyInvokeCalls(modes: E.Modes, approvals: A.Approvals, s: E.State, act: E.Action, me: ActorId)
    requires var p := E.PhaseOf(E.Next(modes, approvals, s, act), me); p.Called? && p != E.PhaseOf(s, me)
    ensures act == E.Invoke(me, E.PhaseOf(E.Next(modes, approvals, s, act), me).outcome)
  {
  }

  /* ---- every error of every run ---- */

  /** The ledger has a row for exactly this request, in this status. */
  predicate Has(rows: L.Ledger, req: E.Request, status: L.ExecutionStatus) {
    var slot := L.Slot(req.task, req.call.id);
    slot in rows && Same(rows[slot], req) && rows[slot].status == status
  }

  /** The slot of the request holds a row about another call or another approval. */
  predicate Differs(rows: L.Ledger, req: E.Request) {
    var slot := L.Slot(req.task, req.call.id);
    slot in rows && !Same(rows[slot], req)
  }

  /** The request asks the ledger directly, or through its claim. */
  predicate Asks(act: E.Action, p: E.Phase, fault: Fault) {
    || (act.Read? && p.Authorized? && p.req.entry.Execute?)
    || (act.Claim? && p.Missing? && act.fault == fault)
  }

  /** An abandoned row is not old enough, its tool has no recovery capability, or the row is missing. */
  predicate Unrecoverable(modes: E.Modes, rows: L.Ledger, req: E.Request, staleBefore: Time) {
    var slot := L.Slot(req.task, req.call.id);
    slot in rows ==>
      && Same(rows[slot], req) && !rows[slot].status.SUCCEEDED?
      && (staleBefore < rows[slot].updatedAt || modes(req.call.name) == NONE)
  }

  /** What was the case in the step that told an actor an error of this kind. */
  predicate Deserved(modes: E.Modes, s: E.State, act: E.Action, error: Error) {
    var p, rows := E.PhaseOf(s, act.actor), s.core.rows;
    match error
    case PermissionDenied => act.Validate? && !act.permitted
    case ResumeAuthorization => act.Validate? && act.permitted && p.Entered?
    case ToolNotFound => act.Read? && !act.registered
    case InvalidInput => act.Read? && act.registered && !act.inputValid && p.Authorized? && p.req.entry.Execute?
    case IdentityConflict =>
      || (act.Read? && p.Authorized? && Differs(rows, p.req))
      || (Asks(act, p, Fine) && Differs(rows, p.req))
    case ReplayBlocked =>
      || (Asks(act, p, Fine) && (Has(rows, p.req, L.EXECUTING) || Has(rows, p.req, L.FAILED)))
      || (act.Read? && p.Authorized? && p.req.entry.Recover? && Unrecoverable(modes, rows, p.req,
                                                                              p.req.entry.staleBefore))
      || (act.Reclaim? && p.Stale? && (p.expected.Settled() || (act.fault.Fine? && !Still(rows, p.expected))))
    case ValueError => act.Claim? && act.updated < act.created
    case DatabaseError =>
      || (act.Claim? && (act.fault.BodyError? || L.IdTaken(rows, act.id)))
      || (act.Reclaim? && act.fault.BodyError?)
    case PersistenceUncertain =>
      || (act.Finish? && p.Called? && p.outcome.Content? && !act.fault.Fine?)
      || (act.Claim? && act.fault.CommitLost?) || (act.Reclaim? && act.fault.CommitLost?)
    case PersistenceConflict => act.Finish? && p.Called? && p.outcome.Content? && !Holds(rows, p.row)
    case FailedWithoutEffect => act.Finish? && p.Called? && p.outcome.NoEffect?
    case ToolFailed => act.Finish? && p.Called? && p.outcome.OtherError? && !(Holds(rows, p.row) && act.fault.Fine?)
    case OutcomeUnknown =>
      || (act.Finish? && p.Called? && (p.outcome.Unsure? || p.outcome.OtherError?))
      || (Asks(act, p, Fine) && Has(rows, p.req, L.UNKNOWN))
    case _ => false
  }

  /** What was the case in the step that brought an actor into this phase. */
  predicate Earned(modes: E.Modes, approvals: A.Approvals, s: E.State, act: E.Action, now: E.Phase) {
    var p, rows := E.PhaseOf(s, act.actor), s.core.rows;
    match now
    case Idle => act.Crash?
    case Entered(req) =>
      || (act.Begin? && req == act.req)
      || (act.Read? && p.Authorized? && p.req.entry.Recover? && req == p.req.(entry := E.Execute)
          && Has(rows, p.req, L.SUCCEEDED))
    case Authorized(req) => act.Validate? && act.permitted && p == E.Entered(req) && Approved(approvals, req)
    case Missing(req) =>
      && act.Read? && act.registered && act.inputValid && p == E.Authorized(req) && req.entry.Execute?
      && L.Slot(req.task, req.call.id) !in rows
    case Stale(req, read) =>
      && act.Read? && act.registered && p == E.Authorized(req) && req.entry.Recover? && Still(rows, read)
      && Same(read, req) && !read.status.SUCCEEDED? && modes(req.call.name) != NONE
      && read.updatedAt <= req.entry.staleBefore
    case Holding(row) =>
      row.status.EXECUTING? && row.result.None? && row.error.None? &&
      if act.Claim? then
        && act.fault.Fine? && p.Missing? && row.SlotOf() !in rows && Same(row, p.req)
        && row.id == act.id == row.key && row.createdAt == act.created && row.updatedAt == act.updated
      else
        && act.Reclaim? && act.fault.Fine? && p.Stale? && Still(rows, p.expected) && !p.expected.Settled()
        && row.SameIdentity(p.expected) && row.updatedAt == Max(act.now, p.expected.updatedAt + 1)
    case Called(row, outcome) => p == E.Holding(row) && act == E.Invoke(act.actor, outcome)
    case Done(Returned(call, content)) =>
      || (Asks(act, p, Fine) && call == p.req.call && Has(rows, p.req, L.SUCCEEDED)
          && rows[L.Slot(p.req.task, call.id)].result == Some(content))
      || (act.Finish? && act.fault.Fine? && p.Called? && p.outcome == E.Content(content) && call == p.row.Call()
          && Holds(rows, p.row))
    case Done(Raised(error)) => Deserved(modes, s, act, error)
  }

  /** A persisted approval of exactly this call of this Task. */
  predicate Approved(approvals: A.Approvals, req: E.Request) {
    && req.approval in approvals
    && var approval := approvals[req.approval];
       && approval.status == A.APPROVED && approval.taskId == req.task
       && ToolCall(approval.callId, approval.toolName, approval.arguments) == req.call
  }

  /** The whole protocol by what each step needs: nobody is authorized, claims, calls the tool, or is told a content or an
      error without having earned it in the step that did so. */
  lemma {:induction false} PhasesAreEarned(modes: E.Modes, approvals: A.Approvals, s: E.State, act: E.Action)
    requires LI.Inv(modes, approvals, s)
    ensures var now := E.PhaseOf(E.Next(modes, approvals, s, act), act.actor);
            now != E.PhaseOf(s, act.actor) ==> Earned(modes, approvals, s, act, now)
  {
    var p := E.PhaseOf(s, act.actor);
    match (act, p)
    case (Claim(_, id, created, updated, fault), Missing(req)) =>
      RowIsKnown(modes, approvals, s, req.SlotOf());
      ClaimEarns(modes, approvals, s, act, req);
    case (Reclaim(_, now, fault), Stale(req, expected)) =>
      RowReadIsKnown(modes, approvals, s, act.actor);
      ReclaimEarns(modes, approvals, s, act, req, expected);
    case (Read(_, registered, inputValid), Authorized(req)) =>
      RowIsKnown(modes, approvals, s, req.SlotOf());
      ReadEarns(modes, approvals, s, act, req);
    case (Finish(_, now, fault), Called(claim, outcome)) =>
      FinishTells(modes, approvals, s, act.actor, claim, outcome, now, fault);
      ClaimIsKnown(modes, approvals, s, act.actor);
    case _ =>
  }

  lemma RowIsKnown(modes: E.Modes, approvals: A.Approvals, s: E.State, slot: L.Slot)
    requires LI.Inv(modes, approvals, s)
    ensures slot in s.core.rows ==> s.core.rows[slot].SlotOf() == slot && s.core.rows[slot].WellFormed()
  {
    assert LI.CellOk(modes, approvals, slot, LI.CellAt(s.core, slot));
  }

  lemma RowReadIsKnown(modes: E.Modes, approvals: A.Approvals, s: E.State, me: ActorId)
    requires LI.Inv(modes, approvals, s) && E.PhaseOf(s, me).Stale?
    ensures E.PhaseOf(s, me).req.entry.Recover?
    ensures var read := E.PhaseOf(s, me).expected;
            && read.WellFormed() && read.SlotOf() in s.core.rows && s.core.rows[read.SlotOf()].SameIdentity(read)
            && read.updatedAt <= E.PhaseOf(s, me).req.entry.staleBefore
  {
    assert LI.PhaseOk(modes, approvals, s.core, E.PhaseOf(s, me));
  }

  lemma ClaimEarns(modes: E.Modes, approvals: A.Approvals, s: E.State, act: E.Action, req: E.Request)
    requires act.Claim? && E.PhaseOf(s, act.actor) == E.Missing(req)
    requires req.SlotOf() in s.core.rows ==>
               s.core.rows[req.SlotOf()].SlotOf() == req.SlotOf() && s.core.rows[req.SlotOf()].WellFormed()
    ensures Earned(modes, approvals, s, act, E.PhaseOf(E.Next(modes, approvals, s, act), act.actor))
  {
  }

  lemma ReclaimEarns(modes: E.Modes, approvals: A.Approvals, s: E.State, act: E.Action, req: E.Request,
                     read: L.ToolExecution)
    requires act.Reclaim? && E.PhaseOf(s, act.actor) == E.Stale(req, read) && req.entry.Recover?
    requires read.WellFormed() && read.SlotOf() in s.core.rows && s.core.rows[read.SlotOf()].SameIdentity(read)
    requires read.updatedAt <= req.entry.staleBefore
    ensures Earned(modes, approvals, s, act, E.PhaseOf(E.Next(modes, approvals, s, act), act.actor))
  {
  }

  lemma ReadEarns(modes: E.Modes, approvals: A.Approvals, s: E.State, act: E.Action, req: E.Request)
    requires act.Read? && E.PhaseOf(s, act.actor) == E.Authorized(req)
    requires req.SlotOf() in s.core.rows ==>
               s.core.rows[req.SlotOf()].SlotOf() == req.SlotOf() && s.core.rows[req.SlotOf()].WellFormed()
    ensures Earned(modes, approvals, s, act, E.PhaseOf(E.Next(modes, approvals, s, act), act.actor))
  {
  }
}
