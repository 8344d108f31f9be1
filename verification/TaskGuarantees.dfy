/** What every run of the deployment guarantees about Tasks, Approvals and their owners. */
module TaskGuarantees {
  import opened Values
  import opened TaskModel
  import opened ApprovalModel
  import opened BusinessStore
  import opened BusinessProtocol
  import BI = BusinessInvariant
  import D = Deployment
  import E = ExecutionProtocol

  /** The question and the Task agree in every reachable state. */
  lemma {:induction false} CrossRows(modes: E.Modes, steps: seq<D.Step>, task: TaskId)
    ensures var rows := D.Run(modes, D.INITIAL, steps).business.rows;
            task in rows.tasks ==>
              && rows.tasks[task].WellFormed()
              && (rows.tasks[task].status.WAITING_APPROVAL? ==>
                    exists id | id in rows.approvals :: rows.approvals[id].taskId == task && rows.approvals[id].status.PENDING?)
              && (rows.tasks[task].status.REJECTED? <==>
                    exists id | id in rows.approvals :: rows.approvals[id].taskId == task && rows.approvals[id].status.REJECTED?)
  {
    D.Reachable(modes, steps);
    var rows := D.Run(modes, D.INITIAL, steps).business.rows;
    if task in rows.tasks {
      if rows.tasks[task].status.WAITING_APPROVAL? {
        assert BI.Asked(rows, task, ApprovalStatus.PENDING);
      }
      assert rows.tasks[task].status.REJECTED? <==> BI.Asked(rows, task, ApprovalStatus.REJECTED);
    }
  }

  /** Finished Tasks and decided Approvals never change again. */
  lemma {:induction false} FinalityOfRows(modes: E.Modes, steps: seq<D.Step>, more: seq<D.Step>, task: TaskId,
                                          id: ApprovalId)
    ensures var rows := D.Run(modes, D.INITIAL, steps).business.rows;
            var later := D.Run(modes, D.INITIAL, steps + more).business.rows;
            && (task in rows.tasks && Terminal(rows.tasks[task].status) ==>
                  task in later.tasks && later.tasks[task] == rows.tasks[task])
            && (id in rows.approvals && !rows.approvals[id].status.PENDING? ==>
                  id in later.approvals && later.approvals[id] == rows.approvals[id])
  {
    D.Reachable(modes, steps);
    D.RunConcat(modes, D.INITIAL, steps, more);
    D.RunKeeps(modes, D.Run(modes, D.INITIAL, steps), more);
  }

  /** One accepted decision per Approval, and one resume dispatched by decide(), only after an approval. */
  lemma {:induction false} DecidedOnce(modes: E.Modes, steps: seq<D.Step>, id: ApprovalId)
    ensures var b := D.Run(modes, D.INITIAL, steps).business;
            && |At(b.decisions, id)| <= 1
            && (At(b.decisions, id) != [] <==> id in b.rows.approvals && !b.rows.approvals[id].status.PENDING?)
            && (At(b.decisions, id) != [] ==> At(b.decisions, id) == [b.rows.approvals[id].status])
            && |At(b.dispatched, id)| <= |At(b.decisions, id)|
            && (At(b.dispatched, id) != [] ==> At(b.decisions, id) == [APPROVED])
  {
    D.Reachable(modes, steps);
    assert BI.LogOk(D.Run(modes, D.INITIAL, steps).business, id);
  }

  /** A write that expects this snapshot finds nothing, whatever it wants to write. */
  ghost predicate Refused(b: Business, a: ActorId, expected: TaskRow) {
    && !Current(b.rows.tasks, expected)
    && (forall op: Operation, now: Time, fault: Fault :: AfterWrite(b, a, expected, op, now, fault) == b)
    && (forall approval: ApprovalRow, now: Time, fault: Fault :: AfterPause(b, expected, approval, now, fault) == b)
  }

  lemma SupersededIsRefused(b: Business, a: ActorId, expected: TaskRow)
    requires BI.Inv(b)
    requires expected.id in b.rows.tasks && expected.updatedAt < b.rows.tasks[expected.id].updatedAt
    ensures Refused(b, a, expected)
  {
  }

  /** Once a recovery claim has moved a Task on, its former owner is refused for the rest of the run. */
  lemma {:induction false} ClaimFencesOwner(modes: E.Modes, steps: seq<D.Step>, more: seq<D.Step>, operator: ActorId,
                                            now: Time, fault: Fault,
                         owner: ActorId, expected: TaskRow)
    requires var b := D.Run(modes, D.INITIAL, steps).business;
             && HoldOf(b, operator) == Captured(expected)
             && Transition(ClaimRecovery, expected, now).Ok?
             && WriteLands(b.rows, Transition(ClaimRecovery, expected, now).value, expected, fault)
    ensures var claim := D.OnBusiness(Write(operator, ClaimRecovery, now, fault));
            Refused(D.Run(modes, D.INITIAL, (steps + [claim]) + more).business, owner, expected)
  {
    var claim := D.OnBusiness(Write(operator, ClaimRecovery, now, fault));
    var w := D.Run(modes, D.INITIAL, steps + [claim]);
    D.Reachable(modes, steps);
    assert BI.HoldOk(D.Run(modes, D.INITIAL, steps).business, Captured(expected));
    D.RunAppend(modes, D.INITIAL, steps, claim);
    D.Reachable(modes, steps + [claim]);
    D.RunConcat(modes, D.INITIAL, steps + [claim], more);
    D.RunKeeps(modes, w, more);
    SupersededIsRefused(D.Run(modes, w, more).business, owner, expected);
  }
}
