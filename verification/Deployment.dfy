/** The whole deployment: both protocols over one database, and what holds in every run of it. */
module Deployment {
  import opened Values
  import opened ApprovalModel
  import E = ExecutionProtocol
  import LI = LedgerInvariant
  import LS = LedgerSteps
  import T = TaskModel
  import S = BusinessStore
  import B = BusinessProtocol
  import BI = BusinessInvariant

  datatype World = World(business: B.Business, ledger: E.State)

  const INITIAL := World(B.NOTHING, E.EMPTY)

  datatype Step = OnBusiness(business: B.Action) | OnLedger(ledger: E.Action)

  function Next(modes: E.Modes, w: World, step: Step): World {
    match step
    case OnBusiness(act) => w.(business := B.Next(w.business, act))
    case OnLedger(act) => w.(ledger := E.Next(modes, w.business.rows.approvals, w.ledger, act))
  }

  /** Any interleaving of any number of actors. */
  function Run(modes: E.Modes, w: World, steps: seq<Step>): World {
    if steps == [] then w else Next(modes, Run(modes, w, steps[..|steps| - 1]), Last(steps))
  }

  ghost predicate Inv(modes: E.Modes, w: World) {
    BI.Inv(w.business) && LI.Inv(modes, w.business.rows.approvals, w.ledger)
  }

  /** How any later state relates to an earlier one. */
  ghost predicate Later(w: World, v: World) {
    BI.RowsEvolve(w.business.rows, v.business.rows) && LI.Grows(w.ledger.core, v.ledger.core)
  }

  lemma {:induction false} NextKeeps(modes: E.Modes, w: World, step: Step)
    requires Inv(modes, w)
    ensures Inv(modes, Next(modes, w, step)) && Later(w, Next(modes, w, step))
  {
    LI.NoStep(w.ledger.core);
    match step
    case OnBusiness(act) =>
      BI.NextKeeps(w.business, act);
      LS.ApprovalsMayEvolve(modes, w.business.rows.approvals, B.Next(w.business, act).rows.approvals, w.ledger);
    case OnLedger(act) =>
      LS.NextKeeps(modes, w.business.rows.approvals, w.ledger, act);
  }

  lemma LaterTransitive(u: World, v: World, w: World)
    requires Later(u, v) && Later(v, w)
    ensures Later(u, w)
  {
    LS.GrowsTransitive(u.ledger.core, v.ledger.core, w.ledger.core);
    assert BI.RowsEvolve(u.business.rows, w.business.rows) by {
      EvolveTransitive(u.business.rows, v.business.rows, w.business.rows);
    }
  }

  lemma EvolveTransitive(a: S.Rows, b: S.Rows, c: S.Rows)
    requires BI.RowsEvolve(a, b) && BI.RowsEvolve(b, c)
    ensures BI.RowsEvolve(a, c)
  {
    forall id | id in a.approvals
      ensures id in c.approvals && c.approvals[id].SameRequest(a.approvals[id])
      ensures !a.approvals[id].status.PENDING? ==> c.approvals[id] == a.approvals[id]
    {
      assert id in b.approvals;
    }
    forall t | t in a.tasks
      ensures t in c.tasks && c.tasks[t].input == a.tasks[t].input && c.tasks[t].createdAt == a.tasks[t].createdAt
      ensures a.tasks[t].updatedAt <= c.tasks[t].updatedAt
      ensures T.Terminal(a.tasks[t].status) ==> c.tasks[t] == a.tasks[t]
    {
      assert t in b.tasks;
    }
  }

  /** Every run keeps the invariant and only moves forward. */
  lemma {:induction false} RunKeeps(modes: E.Modes, w: World, steps: seq<Step>)
    requires Inv(modes, w)
    ensures Inv(modes, Run(modes, w, steps)) && Later(w, Run(modes, w, steps))
  {
    if steps == [] {
      LI.NoStep(w.ledger.core);
    } else {
      var before := Run(modes, w, steps[..|steps| - 1]);
      RunKeeps(modes, w, steps[..|steps| - 1]);
      NextKeeps(modes, before, Last(steps));
      LaterTransitive(w, before, Run(modes, w, steps));
    }
  }

  /** Runs that start with empty tables. */
  lemma {:induction false} Reachable(modes: E.Modes, steps: seq<Step>)
    ensures Inv(modes, Run(modes, INITIAL, steps))
  {
    BI.InitHolds();
    LI.InitHolds(modes, map[]);
    RunKeeps(modes, INITIAL, steps);
  }

  lemma {:induction false} RunAppend(modes: E.Modes, w: World, steps: seq<Step>, step: Step)
    ensures Run(modes, w, steps + [step]) == Next(modes, Run(modes, w, steps), step)
  {
    assert (steps + [step])[..|steps|] == steps;
  }

  lemma {:induction false} RunConcat(modes: E.Modes, w: World, steps: seq<Step>, more: seq<Step>)
    ensures Run(modes, w, steps + more) == Run(modes, Run(modes, w, steps), more)
  {
    if more == [] {
      assert steps + more == steps;
    } else {
      var init := more[..|more| - 1];
      RunConcat(modes, w, steps, init);
      assert steps + more == (steps + init) + [Last(more)];
      RunAppend(modes, w, steps + init, Last(more));
    }
  }

  /** A longer trace leads to a later state. */
  lemma {:induction false} Longer(modes: E.Modes, steps: seq<Step>, more: seq<Step>)
    requires steps <= more
    ensures Later(Run(modes, INITIAL, steps), Run(modes, INITIAL, more))
  {
    assert more == steps + more[|steps|..];
    RunConcat(modes, INITIAL, steps, more[|steps|..]);
    Reachable(modes, steps);
    RunKeeps(modes, Run(modes, INITIAL, steps), more[|steps|..]);
  }
}
