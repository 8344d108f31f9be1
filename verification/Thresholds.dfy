/** The configured threshold in every transaction of a recovery: what it may claim, and that its steps are on time for the
    bound on the rate of claims (backend/app/tasks/recovery.py, backend/app/executions/recovery.py). */
module Thresholds {
  import opened Values
  import A = ApprovalModel
  import TM = TaskModel
  import E = ExecutionProtocol
  import D = Deployment
  import T = Timing
  import RR = RecoveryRules
  import opened Site
  import TS = TaskServices
  import TR = TaskRecovery

  /* ---- the request behind a claim ---- */

  /** Where an actor may be that calls the ledger with no other entry than this one. */
  predicate Within(p: E.Phase, entry: E.Entry) {
    match p
    case Entered(req) => req.entry == entry || req.entry.Execute?
    case Authorized(req) => req.entry == entry || req.entry.Execute?
    case Stale(req, _) => req.entry == entry
    case _ => true
  }

  lemma StepStaysWithin(modes: E.Modes, approvals: A.Approvals, s: E.State, act: E.Action, me: ActorId, entry: E.Entry)
    requires entry.Recover?
    requires Within(E.PhaseOf(s, me), entry) && (act.actor == me && act.Begin? ==> act.req.entry == entry)
    ensures Within(E.PhaseOf(E.Next(modes, approvals, s, act), me), entry)
  {
  }

  lemma {:induction false} RunStaysWithin(modes: E.Modes, trace: seq<D.Step>, longer: seq<D.Step>, me: ActorId,
                                          entry: E.Entry)
    requires entry.Recover?
    requires trace <= longer && Within(E.PhaseOf(D.Run(modes, D.INITIAL, trace).ledger, me), entry)
    requires forall k | |trace| <= k < |longer| && By(me, longer[k]) && longer[k].OnLedger? && longer[k].ledger.Begin? ::
               longer[k].ledger.req.entry == entry
    ensures Within(E.PhaseOf(D.Run(modes, D.INITIAL, longer).ledger, me), entry)
  {
    if longer != trace {
      var init := longer[..|longer| - 1];
      RunStaysWithin(modes, trace, init, me, entry);
      var w := D.Run(modes, D.INITIAL, init);
      if Last(longer).OnLedger? {
        assert longer[|longer| - 1].OnLedger?;
        StepStaysWithin(modes, w.business.rows.approvals, w.ledger, Last(longer).ledger, me, entry);
      }
    } else {
      assert longer == trace;
    }
  }

  /* ---- the ledger steps of a recovery ---- */

  /** A recovery begins with the cutoff that its clock and the threshold give, and claims with its own readings. */
  function EntryFor(c: TR.Circumstances): E.Entry {
    E.Recover(c.clock - c.staleAfter)
  }

  predicate Fitting(step: D.Step, c: TR.Circumstances) {
    step.OnLedger? ==>
      && (step.ledger.Begin? ==> step.ledger.req.entry == EntryFor(c))
      && (step.ledger.Claim? ==> step.ledger.updated == c.tool.updated)
      && (step.ledger.Reclaim? ==> step.ledger.now == c.tool.reclaimNow)
  }

  lemma {:induction false} AttemptFits(me: ActorId, redo: TR.Redo, approval: ApprovalId, id: TaskId, call: ToolCall,
                                       c: TR.Circumstances, step: D.Step)
    requires step in TR.Redone(me, redo, approval, id, call, c)
    ensures Fitting(step, c)
  {
    assert step in TR.Attempt(me, approval, id, call, redo.cached, c);
  }

  lemma {:induction false} DeedsFit(me: ActorId, id: TaskId, d: RR.Decision, task: Option<TM.TaskRow>, redo: TR.Redo,
                                    ending: TR.Ending, c: TR.Circumstances, step: D.Step)
    requires step in TR.Reads(me, id, task) || step in TR.Deeds(me, d, task, redo, ending, c)
    ensures Fitting(step, c)
  {
    if step.OnLedger? && d.Dispatch? && task.Some? {
      assert step in TR.Redone(me, redo, d.approval, task.value.id, d.call, c) by {
        assert step !in TR.Tail(me, ending, TR.ClaimOf(task.value, c.writeNow), d.atPause, c);
      }
      AttemptFits(me, redo, d.approval, task.value.id, d.call, c, step);
    }
  }

  /** A claim of an abandoned row is made for a cutoff that lies the threshold before the clock of this recovery. */
  predicate Patient(s: E.State, act: E.Action, c: TR.Circumstances) {
    act.Reclaim? && E.PhaseOf(s, act.actor).Stale? ==>
      && E.PhaseOf(s, act.actor).req.entry.Recover?
      && E.PhaseOf(s, act.actor).req.entry.staleBefore + c.staleAfter <= c.clock
  }

  /** Each ledger step of a recovery is patient, and on time when its readings were taken in order. */
  lemma {:induction false} StepIsOnTime(modes: E.Modes, me: ActorId, trace: seq<D.Step>, longer: seq<D.Step>,
                                        own: seq<D.Step>, c: TR.Circumstances, k: nat)
    requires trace <= longer && Mine(me, longer) == Mine(me, trace) + own
    requires forall step | step in own :: Fitting(step, c)
    requires var p := E.PhaseOf(D.Run(modes, D.INITIAL, trace).ledger, me); p.Idle? || p.Done?
    requires |trace| <= k < |longer| && By(me, longer[k]) && longer[k].OnLedger?
    ensures var s := D.Run(modes, D.INITIAL, longer[..k]).ledger;
            && Patient(s, longer[k].ledger, c)
            && forall at: Time | c.clock <= c.tool.reclaimNow <= at && c.tool.updated <= at ::
                 T.OnTime(s, longer[k].ledger, at, c.staleAfter)
  {
    var prefix := longer[..k];
    assert trace <= prefix;
    AddedStep(me, trace, longer, own, k);
    forall j | |trace| <= j < |prefix| && By(me, prefix[j]) && prefix[j].OnLedger? && prefix[j].ledger.Begin?
      ensures prefix[j].ledger.req.entry == EntryFor(c)
    {
      AddedStep(me, trace, longer, own, j);
    }
    RunStaysWithin(modes, trace, prefix, me, EntryFor(c));
  }

  /** recover(): whatever the others do, every claim it makes respects the configured threshold, so that its steps meet the
      hypothesis of the bound on the rate of claims. */
  method Recover(recovery: TR.TaskRecoveryService, id: TaskId, capability: RR.Capability, c: TR.Circumstances)
    returns (reply: Result<TR.RecoveryOutcome>)
    requires recovery.Valid() && recovery.service.runtime.Valid()
    requires recovery.service.Hold().Free? || recovery.service.Hold().Captured?
    requires recovery.service.Phase().Idle? || recovery.service.Phase().Done?
    modifies recovery.service.site, recovery.service.site.store
    modifies recovery.service.site.executions, recovery.service.runtime
    ensures recovery.Valid() && old(recovery.service.site.trace) <= recovery.service.site.trace
    ensures var site, me := recovery.service.site, recovery.service.me;
            forall k | |old(site.trace)| <= k < |site.trace| && By(me, site.trace[k]) && site.trace[k].OnLedger? ::
              var s := D.Run(site.modes, D.INITIAL, site.trace[..k]).ledger;
              && Patient(s, site.trace[k].ledger, c)
              && forall at: Time | c.clock <= c.tool.reclaimNow <= at && c.tool.updated <= at ::
                   T.OnTime(s, site.trace[k].ledger, at, c.staleAfter)
  {
    ghost var site, me, trace := recovery.service.site, recovery.service.me, recovery.service.site.trace;
    ghost var d, r, at, redo, ending, moved;
    reply, d, r, at, redo, ending, moved := recovery.Recover(id, capability, c);
    ghost var own := TR.Reads(me, id, r.task) + TR.Deeds(me, d, r.task, redo, ending, c);
    TS.Regroup(Mine(me, trace), TR.Reads(me, id, r.task), TR.Deeds(me, d, r.task, redo, ending, c));
    forall step | step in own ensures Fitting(step, c) {
      DeedsFit(me, id, d, r.task, redo, ending, c, step);
    }
    forall k | |trace| <= k < |site.trace| && By(me, site.trace[k]) && site.trace[k].OnLedger?
      ensures var s := D.Run(site.modes, D.INITIAL, site.trace[..k]).ledger;
              && Patient(s, site.trace[k].ledger, c)
              && forall at: Time | c.clock <= c.tool.reclaimNow <= at && c.tool.updated <= at ::
                   T.OnTime(s, site.trace[k].ledger, at, c.staleAfter)
    {
      StepIsOnTime(site.modes, me, trace, site.trace, own, c, k);
    }
  }
}
