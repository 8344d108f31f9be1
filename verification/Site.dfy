/** The database as one actor's code meets it: between any two of its transactions the rest of the
    deployment may do anything. The code below works on the tables; the site keeps the account of
    which protocol step each transaction was. */
module Site {
  import opened Values
  import LM = LedgerModel
  import E = ExecutionProtocol
  import LI = LedgerInvariant
  import S = BusinessStore
  import B = BusinessProtocol
  import D = Deployment

  /** Is this a step of the given actor? */
  predicate By(me: ActorId, step: D.Step) {
    match step
    case OnBusiness(act) => act.actor == me
    case OnLedger(act) => act.actor == me
  }

  /** The steps of an actor in a trace. */
  function Mine(me: ActorId, steps: seq<D.Step>): seq<D.Step> {
    if steps == [] then []
    else Mine(me, steps[..|steps| - 1]) + (if By(me, Last(steps)) then [Last(steps)] else [])
  }

  /** The others leave an actor's phase and holding alone. */
  lemma {:induction false} OthersKeepMine(modes: E.Modes, w: D.World, steps: seq<D.Step>, me: ActorId)
    requires Mine(me, steps) == []
    ensures var v := D.Run(modes, w, steps);
            E.PhaseOf(v.ledger, me) == E.PhaseOf(w.ledger, me) && B.HoldOf(v.business, me) == B.HoldOf(w.business, me)
  {
    if steps != [] {
      var init := steps[..|steps| - 1];
      assert Mine(me, init) == [];
      OthersKeepMine(modes, w, init, me);
      var before := D.Run(modes, w, init);
      match Last(steps)
      case OnBusiness(act) => StrangerHold(before.business, act, me);
      case OnLedger(act) => StrangerPhase(modes, before, act, me);
    }
  }

  lemma StrangerHold(b: B.Business, act: B.Action, me: ActorId)
    requires act.actor != me
    ensures B.HoldOf(B.Next(b, act), me) == B.HoldOf(b, me)
  {
  }

  lemma StrangerPhase(modes: E.Modes, w: D.World, act: E.Action, me: ActorId)
    requires act.actor != me
    ensures E.PhaseOf(E.Next(modes, w.business.rows.approvals, w.ledger, act), me) == E.PhaseOf(w.ledger, me)
  {
  }

  /** An actor's own ledger steps leave its holding alone as well. */
  lemma {:induction false} LedgerStepsKeepHold(modes: E.Modes, w: D.World, steps: seq<D.Step>, me: ActorId)
    requires forall step | step in Mine(me, steps) :: step.OnLedger?
    ensures B.HoldOf(D.Run(modes, w, steps).business, me) == B.HoldOf(w.business, me)
  {
    if steps != [] {
      var init := steps[..|steps| - 1];
      assert forall step | step in Mine(me, init) :: step in Mine(me, steps);
      LedgerStepsKeepHold(modes, w, init, me);
      assert By(me, Last(steps)) ==> Last(steps) in Mine(me, steps);
      if Last(steps).OnBusiness? {
        StrangerHold(D.Run(modes, w, init).business, Last(steps).business, me);
      }
    }
  }

  /** Ledger steps write neither Task nor Approval. */
  lemma {:induction false} LedgerStepsKeepRows(modes: E.Modes, w: D.World, steps: seq<D.Step>)
    requires forall step | step in steps :: step.OnLedger?
    ensures D.Run(modes, w, steps).business == w.business
  {
    if steps != [] {
      LedgerStepsKeepRows(modes, w, steps[..|steps| - 1]);
      assert Last(steps) in steps;
    }
  }

  lemma {:induction false} MineConcat(me: ActorId, s: seq<D.Step>, t: seq<D.Step>)
    ensures Mine(me, s + t) == Mine(me, s) + Mine(me, t)
  {
    if t == [] {
      assert s + t == s;
    } else {
      MineConcat(me, s, t[..|t| - 1]);
      assert (s + t)[..|s + t| - 1] == s + t[..|t| - 1];
    }
  }

  lemma {:induction false} MineIsNoLonger(me: ActorId, steps: seq<D.Step>)
    ensures |Mine(me, steps)| <= |steps|
    ensures |Mine(me, steps)| == |steps| ==> Mine(me, steps) == steps
  {
    if steps != [] {
      MineIsNoLonger(me, steps[..|steps| - 1]);
      assert steps == steps[..|steps| - 1] + [Last(steps)];
    }
  }

  /** A trace to which nobody else added grew by this actor's steps. */
  lemma {:induction false} NobodyElse(me: ActorId, trace: seq<D.Step>, longer: seq<D.Step>)
    requires trace <= longer && |longer| - |Mine(me, longer)| == |trace| - |Mine(me, trace)|
    ensures Mine(me, longer) == Mine(me, trace) + longer[|trace|..]
  {
    var rest := longer[|trace|..];
    assert longer == trace + rest;
    MineConcat(me, trace, rest);
    MineIsNoLonger(me, rest);
  }

  lemma {:induction false} MineHolds(me: ActorId, steps: seq<D.Step>, k: nat)
    requires k < |steps| && By(me, steps[k])
    ensures steps[k] in Mine(me, steps)
  {
    if k < |steps| - 1 {
      MineHolds(me, steps[..|steps| - 1], k);
    }
  }

  /** A step that this actor added is one of the steps that it added. */
  lemma {:induction false} AddedStep(me: ActorId, trace: seq<D.Step>, longer: seq<D.Step>, own: seq<D.Step>, k: nat)
    requires trace <= longer && Mine(me, longer) == Mine(me, trace) + own
    requires |trace| <= k < |longer| && By(me, longer[k])
    ensures longer[k] in own
  {
    var rest := longer[|trace|..];
    assert longer == trace + rest;
    MineConcat(me, trace, rest);
    assert Mine(me, rest) == own by { assert Mine(me, longer)[|Mine(me, trace)|..] == own; }
    MineHolds(me, rest, k - |trace|);
  }

  /** An actor that added ledger steps only still holds what it held. */
  lemma {:induction false} HoldStays(modes: E.Modes, me: ActorId, trace: seq<D.Step>, longer: seq<D.Step>,
                                     own: seq<D.Step>)
    requires trace <= longer && Mine(me, longer) == Mine(me, trace) + own
    requires forall step | step in own :: step.OnLedger?
    ensures B.HoldOf(D.Run(modes, D.INITIAL, longer).business, me) ==
              B.HoldOf(D.Run(modes, D.INITIAL, trace).business, me)
  {
    var rest := longer[|trace|..];
    assert longer == trace + rest;
    MineConcat(me, trace, rest);
    assert Mine(me, rest) == own by { assert Mine(me, longer)[|Mine(me, trace)|..] == own; }
    D.RunConcat(modes, D.INITIAL, trace, rest);
    LedgerStepsKeepHold(modes, D.Run(modes, D.INITIAL, trace), rest, me);
  }

  class Site {
    const modes: E.Modes
    const store: S.Store
    const executions: LM.ExecutionRepository
    var world: D.World                  // the account: tables, logs and where every actor is
    var others: seq<seq<D.Step>>        // what the rest of the deployment does next, batch by batch
    ghost var trace: seq<D.Step>

    /** The account is that of a run from empty tables. */
    ghost predicate Accounted()
      reads this
    {
      world == D.Run(modes, D.INITIAL, trace)
    }

    /** The tables are those of the account. */
    ghost predicate Shows(w: D.World)
      reads this, store, executions
    {
      store.All() == w.business.rows && executions.rows == w.ledger.core.rows
    }

    ghost predicate Valid()
      reads this, store, executions
    {
      Accounted() && Shows(world)
    }

    constructor (modes: E.Modes, others: seq<seq<D.Step>>)
      ensures Valid() && trace == [] && fresh(store) && fresh(executions)
      ensures this.modes == modes && this.others == others
    {
      this.modes, this.others := modes, others;
      store := new S.Store();
      executions := new LM.ExecutionRepository();
      world, trace := D.INITIAL, [];
    }

    lemma Reached()
      requires Accounted()
      ensures D.Inv(modes, world)
    {
      D.Reachable(modes, trace);
    }

    /** Account for a transaction that the tables already show. */
    method Note(step: D.Step)
      requires Accounted() && Shows(D.Next(modes, world, step))
      modifies this
      ensures Valid() && world == D.Next(modes, old(world), step) && trace == old(trace) + [step]
      ensures others == old(others)
    {
      D.RunAppend(modes, D.INITIAL, trace, step);
      world := D.Next(modes, world, step);
      trace := trace + [step];
    }

    /** Everybody else acts, then this actor goes on. */
    method Others(me: ActorId) returns (ghost batch: seq<D.Step>)
      requires Valid()
      modifies this, store, executions
      ensures Valid() && trace == old(trace) + batch && Mine(me, batch) == []
      ensures world == D.Run(modes, old(world), batch) && D.Later(old(world), world)
      ensures E.PhaseOf(world.ledger, me) == E.PhaseOf(old(world).ledger, me)
      ensures B.HoldOf(world.business, me) == B.HoldOf(old(world).business, me)
      ensures old(others) == [] ==> others == [] && world == old(world) && batch == []
    {
      batch := [];
      Reached();
      LI.NoStep(world.ledger.core);
      if others == [] {
        assert trace == trace + [];
        return;
      }
      var next := others[0];
      others := others[1..];
      var i := 0;
      ghost var start := world;
      while i < |next|
        invariant i <= |next| && Valid()
        invariant trace == old(trace) + batch && Mine(me, batch) == []
        invariant world == D.Run(modes, start, batch)
      {
        if !By(me, next[i]) {
          assert (batch + [next[i]])[..|batch|] == batch;
          D.RunAppend(modes, D.INITIAL, trace, next[i]);
          D.RunAppend(modes, start, batch, next[i]);
          world := D.Next(modes, world, next[i]);
          store.tasks, store.approvals := world.business.rows.tasks, world.business.rows.approvals;
          executions.rows := world.ledger.core.rows;
          batch, trace := batch + [next[i]], trace + [next[i]];
        }
        i := i + 1;
      }
      OthersKeepMine(modes, start, batch, me);
      D.RunKeeps(modes, start, batch);
    }
  }
}
